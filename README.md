# Social-media publishing: adapters, result envelope and adapter cache

A Dafny model of the teaching program `SocialMediaIntegration.java`, which shows the Adapter and
Factory patterns on three simulated social-media platforms (Twitter, LinkedIn, Instagram):

- `wrappers.dfy` (`Wrappers`): `Option` (a Java reference that may be null) and `Result` (a call that
  may throw; `Failure` carries the exception message).
- `modelo.dfy` (`Modelo`): the result envelope `RespostaAPI<T>` with its two factory functions
  `Sucesso` and `Falha`, the well-formedness predicate `BemFormada` (the flag is set exactly when a
  payload is present), and the content value `Conteudo` (text plus optional bytes).
- `plataformas.dfy` (`Plataformas`): the three vendor stubs `postTweet`, `shareUpdate` and
  `publishPhoto`, and `Requisicao`, the request each adapter sends in its platform's own shape.
- `adaptadores.dfy` (`Adaptadores`): `publicar` and `autenticar` of the three adapters as pure
  functions. `publicar` returns a `Publicacao`: the envelope and the request sent to the platform,
  `None` when the adapter refused the content without calling the platform. Each adapter's
  `try`/`catch` is a separate function that turns any stub outcome, thrown or returned, into an envelope.
- `fabrica.dfy` (`Fabrica`): `Plataforma`, the adapter class chosen per platform, the adapter object
  (`SocialMediaAdapter`, whose identity the cache preserves), and `SocialMediaFactory`: a class whose
  `cache: map<Plataforma, SocialMediaAdapter>` field `CriarAdaptador` updates in place. Beside it is
  a value-level model of the cache (`ObterOuCriar`, `Apos`, `Criacoes`) with lemmas over any sequence
  of calls.
- `gerenciador.dfy` (`Gerenciador`): `GerenciadorMidiaSocial`, which resolves its adapter once and
  delegates every post to it, and `Demonstracao`, the program's `main` scenario with its outcomes
  proved.

Modelling decisions:

- The random UUID a post id ends with is a parameter (`uuid`). The contracts state the id's
  prefix and that the rest of the id is that UUID.
- The static cache of `SocialMediaFactory` is one `SocialMediaFactory` object. It is created empty, as
  the static map is at program start, and passed to the manager's constructor.
- Where the stubs would throw, they return `Failure(message)`. This keeps the adapters' `catch`
  branches in the model even though the real stubs never reach them (proved: Twitter and LinkedIn
  always succeed; Instagram reaches `publishPhoto` only with media present).
- Instagram checks only that the media reference is non-null (line 174). An empty byte array is not
  null, so the check lets it through and the post succeeds; the model does the same (`Some([])`
  succeeds).
- `RespostaAPI.sucesso` accepts a null payload in Java, but no caller passes one. `Sucesso` takes a
  payload that is always present, so `BemFormada` can state both directions: success exactly when a
  payload is present.

## Model

| member | source | states |
|---|---|---|
| Modelo.Sucesso | API_midia_social/MidiaSocial/src/SocialMediaIntegration.java:17-19 | a success envelope: flag set, payload exactly the given data, message kept; well formed |
| Modelo.Falha | API_midia_social/MidiaSocial/src/SocialMediaIntegration.java:21-23 | a failure envelope: flag clear, no payload (null), message kept; well formed |
| Modelo.BemFormadaSseConstruida | API_midia_social/MidiaSocial/src/SocialMediaIntegration.java:11-23 | an envelope is well formed (flag iff payload) exactly when `Sucesso` or `Falha` could have built it, the only two ways the private constructor is reached |
| Plataformas.TwitterPostTweet | API_midia_social/MidiaSocial/src/SocialMediaIntegration.java:59-63 | `postTweet` never throws; its id is `TweetID:` followed by the UUID |
| Plataformas.LinkedInShareUpdate | API_midia_social/MidiaSocial/src/SocialMediaIntegration.java:76-80 | `shareUpdate` never throws and answers `true` |
| Plataformas.InstagramPublishPhoto | API_midia_social/MidiaSocial/src/SocialMediaIntegration.java:85-91 | `publishPhoto` throws exactly when the photo is null, with the fixed error text |
| Adaptadores.RespostaTwitter | API_midia_social/MidiaSocial/src/SocialMediaIntegration.java:111-118 | every outcome of the Twitter call becomes a well-formed envelope: success iff the call returned, carrying its id; a thrown message is reported under "Erro ao publicar no Twitter: " |
| Adaptadores.PublicarTwitter | API_midia_social/MidiaSocial/src/SocialMediaIntegration.java:110-119 | Twitter sends the text unchanged as user `currentUser` and always succeeds, for any text including the empty one, with a `TweetID:` id ending in the UUID |
| Adaptadores.RespostaLinkedIn | API_midia_social/MidiaSocial/src/SocialMediaIntegration.java:143-151 | success exactly when `shareUpdate` answered `true`, with a `LinkedInPost:` id; a `false` answer gives the fixed failure message; a thrown message is reported under "Erro ao publicar no LinkedIn: "; always well formed |
| Adaptadores.PublicarLinkedIn | API_midia_social/MidiaSocial/src/SocialMediaIntegration.java:137-152 | LinkedIn sends the text as the body of a post titled "Publicação Profissional" and, with the real stub, always succeeds with a `LinkedInPost:` id ending in the UUID |
| Adaptadores.RespostaInstagram | API_midia_social/MidiaSocial/src/SocialMediaIntegration.java:177-181 | success exactly when `publishPhoto` returned, with an `InstaPost:` id; a thrown message is reported under "Erro ao publicar no Instagram: "; always well formed |
| Adaptadores.PublicarInstagram | API_midia_social/MidiaSocial/src/SocialMediaIntegration.java:171-182 | null media: the fixed failure "O Instagram requer uma imagem ou vídeo para publicar." and no call to the platform; media present: the media and text are sent, and the post succeeds with an `InstaPost:` id ending in the UUID |
| Adaptadores.Autenticar | API_midia_social/MidiaSocial/src/SocialMediaIntegration.java:122-125 | every adapter (also lines 155-158 and 185-188) authenticates successfully with payload `true` and a non-empty message, whatever the user name and password |
| Adaptadores.Publicar | API_midia_social/MidiaSocial/src/SocialMediaIntegration.java:95-98 | the `publicar` dispatch the manager performs (line 233), for every adapter and content: the envelope is well formed; it succeeds iff the content is publishable there (only Instagram needs media); the platform is called iff so, with the text unchanged; a success carries the platform's prefix then the UUID; the only failure is Instagram's missing-media message |
| Adaptadores.IdIdentificaPlataforma | API_midia_social/MidiaSocial/src/SocialMediaIntegration.java:62-178 | the three id prefixes are distinct, so the id of any successful post names the platform that issued it |
| Fabrica.TipoPara | API_midia_social/MidiaSocial/src/SocialMediaIntegration.java:207-213 | TWITTER, LINKEDIN and INSTAGRAM map to TwitterAdapter, LinkedInAdapter and InstagramAdapter, in both directions |
| Fabrica.SocialMediaAdapter.constructor | API_midia_social/MidiaSocial/src/SocialMediaIntegration.java:209-213 | `new TwitterAdapter()`, `new LinkedInAdapter()`, `new InstagramAdapter()` (constructors at lines 105-107, 132-134, 166-168): a new instance of the requested adapter class |
| Fabrica.ObterOuCriar | API_midia_social/MidiaSocial/src/SocialMediaIntegration.java:204-218 | one call on the abstract cache: afterwards the key is present, every earlier entry is unchanged, nothing else is added, and an absent key gets the adapter class of its platform |
| Fabrica.AposCresce | API_midia_social/MidiaSocial/src/SocialMediaIntegration.java:199-206 | over any sequence of calls the cache gains exactly the requested platforms, keeps every entry it had, and stays coherent (each adapter serves its key) |
| Fabrica.UmaCriacaoPorPlataforma | API_midia_social/MidiaSocial/src/SocialMediaIntegration.java:198-206 | over any sequence of calls, the number of adapters constructed equals the number of requested platforms that were not cached before: one per platform |
| Fabrica.RepetirNaoCria | API_midia_social/MidiaSocial/src/SocialMediaIntegration.java:262-264 | repeating a sequence of calls constructs nothing and leaves the cache unchanged |
| Fabrica.SocialMediaFactory.constructor | API_midia_social/MidiaSocial/src/SocialMediaIntegration.java:199 | the cache starts empty and no adapter has been constructed |
| Fabrica.SocialMediaFactory.CriarAdaptador | API_midia_social/MidiaSocial/src/SocialMediaIntegration.java:204-218 | on a hit, returns the cached instance and changes nothing; on a miss, constructs one fresh adapter of the platform's class, adds it under that key only, and returns it; the invariant "each adapter serves its key, one construction per cached platform" is kept; the construction counter grows by `Criacoes` of the abstract cache for the one-call sequence `[p]`, so the sequence lemmas count the factory's own constructions |
| Gerenciador.GerenciadorMidiaSocial.constructor | API_midia_social/MidiaSocial/src/SocialMediaIntegration.java:225-229 | the manager stores the factory's instance for its platform, constructing it only on a cache miss |
| Gerenciador.GerenciadorMidiaSocial.PostarConteudo | API_midia_social/MidiaSocial/src/SocialMediaIntegration.java:231-235 | a post goes to the stored adapter; the envelope is well formed and succeeds iff the content is publishable on the manager's platform |
| Gerenciador.Demonstracao | API_midia_social/MidiaSocial/src/SocialMediaIntegration.java:240-265 | the program's scenario: Twitter and LinkedIn succeed with their prefixes, Instagram without media fails with the fixed message, Instagram with media succeeds, and two later Twitter lookups return the same instance |

## Left out

- Console output (`System.out.println` in the stubs, the adapters and the manager): it has no effect
  on results. `PostarConteudo` returns the envelope that the source prints.
- `UUID.randomUUID()`: nondeterministic; the UUID is an opaque `uuid` parameter.
- Thread safety of `ConcurrentHashMap.computeIfAbsent` (atomic creation under concurrent first
  access): the cache is modelled sequentially, with a single owner.
- `RespostaAPI.toString` and `String.format`: formatting only.
- The `default` branch of the factory's `switch`, which throws `IllegalArgumentException`: it cannot
  be reached with the closed `Plataforma` datatype.
- Hardcoded API key, credentials and token (`twitter_api_key_123`, `user@email.com` /
  `linkedin_token`, `instagram_auth_token_xyz`): the stubs ignore them, so `Requisicao` does not
  carry them.
- A null `Conteudo`, a null text, and an exception whose message is null: a datatype value cannot be
  null. In Java a null `Conteudo` passed to any `publicar` throws a NullPointerException inside the
  `try` (lines 113, 141, 174), which the `catch` turns into a failure envelope; the program never
  does this.
- Fabrica.SocialMediaFactory.CriarAdaptador: "one instance per platform" holds per factory object,
  not per process. The source keeps the cache in a static field (line 199) behind a private
  constructor (line 202); Dafny has no static mutable state, so the model's constructor is public and
  two factory objects would hand out two different adapters for the same platform. Nothing in the
  model enforces that a single factory object is used.
