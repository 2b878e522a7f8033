/** The three adapters of `ISocialMediaAdapter`. Each translates a `Conteudo` into its platform's
    request, calls the platform stub, and wraps whatever the stub returns or throws into a
    `RespostaAPI`, so that no exception leaves `publicar`. */
module Adaptadores {
  import opened Wrappers
  import opened Modelo
  import opened Plataformas

  /** The three implementations of `ISocialMediaAdapter`. */
  datatype TipoAdaptador = TwitterAdapter | LinkedInAdapter | InstagramAdapter

  /** What one `publicar` call yields: the envelope, and the request sent to the platform stub
      (`None` when the adapter rejected the content without calling the stub). */
  datatype Publicacao = Publicacao(resposta: RespostaAPI<string>, chamada: Option<Requisicao>)

  const UsuarioTwitter: string := "currentUser"
  const TituloLinkedIn: string := "Publicação Profissional"
  const PrefixoLinkedIn: string := "LinkedInPost:"
  const PrefixoInstagram: string := "InstaPost:"
  const MsgInstagramSemMidia: string := "O Instagram requer uma imagem ou vídeo para publicar."
  const MsgLinkedInRecusou: string := "API do LinkedIn retornou falha na publicação."

  /** The prefix of the post id each platform returns. */
  function Prefixo(t: TipoAdaptador): string
  {
    match t
    case TwitterAdapter => PrefixoTweet
    case LinkedInAdapter => PrefixoLinkedIn
    case InstagramAdapter => PrefixoInstagram
  }

  /** The text a request carries to its platform. */
  function TextoEnviado(req: Requisicao): string
  {
    match req
    case PostTweet(_, t) => t
    case ShareUpdate(_, b) => b
    case PublishPhoto(_, c) => c
  }

  // ---------------------------------------------------------------- Twitter

  /** Wraps what `postTweet` returned or threw. */
  function RespostaTwitter(res: Result<string, string>): (r: RespostaAPI<string>)
    ensures BemFormada(r)
    ensures r.sucesso <==> res.Success?
    ensures res.Success? ==> r.dados == Some(res.value)
    ensures res.Failure? ==> r.mensagem == "Erro ao publicar no Twitter: " + res.error
  {
    match res
    case Success(tweetId) => Sucesso(tweetId, "Tweet publicado com sucesso!")
    case Failure(e) => Falha("Erro ao publicar no Twitter: " + e)
  }

  /** `TwitterAdapter.publicar`: posts the text as user `currentUser`; always succeeds. */
  function PublicarTwitter(c: Conteudo, uuid: string): (p: Publicacao)
    ensures p.chamada == Some(PostTweet(UsuarioTwitter, c.texto))
    ensures p.resposta.sucesso && p.resposta.dados.Some?
    ensures PrefixoTweet <= p.resposta.dados.value && p.resposta.dados.value[|PrefixoTweet|..] == uuid
  {
    var req := PostTweet(UsuarioTwitter, c.texto);
    Publicacao(RespostaTwitter(TwitterPostTweet(req.user, req.tweetContent, uuid)), Some(req))
  }

  // ---------------------------------------------------------------- LinkedIn

  /** Wraps what `shareUpdate` returned or threw: success only for a `true` answer. */
  function RespostaLinkedIn(res: Result<bool, string>, uuid: string): (r: RespostaAPI<string>)
    ensures BemFormada(r)
    ensures r.sucesso <==> res == Success(true)
    ensures r.sucesso ==> PrefixoLinkedIn <= r.dados.value && r.dados.value[|PrefixoLinkedIn|..] == uuid
    ensures res == Success(false) ==> r.mensagem == MsgLinkedInRecusou
    ensures res.Failure? ==> r.mensagem == "Erro ao publicar no LinkedIn: " + res.error
  {
    match res
    case Success(ok) =>
      if ok then Sucesso(PrefixoLinkedIn + uuid, "Publicado no LinkedIn!")
      else Falha(MsgLinkedInRecusou)
    case Failure(e) => Falha("Erro ao publicar no LinkedIn: " + e)
  }

  /** `LinkedInAdapter.publicar`: shares the text as the body of a post with a fixed title. */
  function PublicarLinkedIn(c: Conteudo, uuid: string): (p: Publicacao)
    ensures p.chamada == Some(ShareUpdate(TituloLinkedIn, c.texto))
    ensures p.resposta.sucesso && p.resposta.dados.Some?
    ensures PrefixoLinkedIn <= p.resposta.dados.value && p.resposta.dados.value[|PrefixoLinkedIn|..] == uuid
  {
    var req := ShareUpdate(TituloLinkedIn, c.texto);
    Publicacao(RespostaLinkedIn(LinkedInShareUpdate(req.title, req.body), uuid), Some(req))
  }

  // ---------------------------------------------------------------- Instagram

  /** Wraps what `publishPhoto` returned or threw. */
  function RespostaInstagram(res: Result<(), string>, uuid: string): (r: RespostaAPI<string>)
    ensures BemFormada(r)
    ensures r.sucesso <==> res.Success?
    ensures r.sucesso ==> PrefixoInstagram <= r.dados.value && r.dados.value[|PrefixoInstagram|..] == uuid
    ensures res.Failure? ==> r.mensagem == "Erro ao publicar no Instagram: " + res.error
  {
    match res
    case Success(_) => Sucesso(PrefixoInstagram + uuid, "Foto publicada no Instagram!")
    case Failure(e) => Falha("Erro ao publicar no Instagram: " + e)
  }

  /** `InstagramAdapter.publicar`: rejects content whose media is null before calling the platform;
      otherwise publishes the media with the text as caption. */
  function PublicarInstagram(c: Conteudo, uuid: string): (p: Publicacao)
    ensures c.midia.None? ==> p.chamada == None && p == Publicacao(Falha(MsgInstagramSemMidia), None)
    ensures c.midia.Some? ==> p.chamada == Some(PublishPhoto(c.midia, c.texto))
    ensures BemFormada(p.resposta) && (p.resposta.sucesso <==> c.midia.Some?)
    ensures p.resposta.sucesso ==>
              PrefixoInstagram <= p.resposta.dados.value && p.resposta.dados.value[|PrefixoInstagram|..] == uuid
  {
    if c.midia.None? then
      Publicacao(Falha(MsgInstagramSemMidia), None)
    else
      var req := PublishPhoto(c.midia, c.texto);
      Publicacao(RespostaInstagram(InstagramPublishPhoto(req.photo, req.caption), uuid), Some(req))
  }

  // ---------------------------------------------------------------- the interface

  /** Independent statement of when a post goes through: only Instagram has a precondition, media present. */
  predicate PodePublicar(t: TipoAdaptador, c: Conteudo)
  {
    t != InstagramAdapter || c.midia.Some?
  }

  /** `ISocialMediaAdapter.publicar`, dispatched on the adapter's class. Every adapter answers with a
      well-formed envelope; it succeeds exactly when the content is publishable on its platform, calls
      the platform exactly then, forwards the text unchanged, and on success returns the platform's
      prefix followed by the UUID; its only failure is Instagram's missing-media message. */
  function Publicar(t: TipoAdaptador, c: Conteudo, uuid: string): (p: Publicacao)
    ensures BemFormada(p.resposta)
    ensures p.resposta.sucesso <==> PodePublicar(t, c)
    ensures p.chamada.Some? <==> PodePublicar(t, c)
    ensures p.chamada.Some? ==> TextoEnviado(p.chamada.value) == c.texto
    ensures p.resposta.sucesso ==>
              Prefixo(t) <= p.resposta.dados.value && p.resposta.dados.value[|Prefixo(t)|..] == uuid
    ensures !p.resposta.sucesso ==> p.resposta.mensagem == MsgInstagramSemMidia
  {
    match t
    case TwitterAdapter => PublicarTwitter(c, uuid)
    case LinkedInAdapter => PublicarLinkedIn(c, uuid)
    case InstagramAdapter => PublicarInstagram(c, uuid)
  }

  /** `ISocialMediaAdapter.autenticar`: a simulated login that ignores its arguments. */
  function Autenticar(t: TipoAdaptador, usuario: string, senha: string): (r: RespostaAPI<bool>)
    ensures r.sucesso && r.dados == Some(true) && |r.mensagem| > 0
  {
    match t
    case TwitterAdapter => Sucesso(true, "Autenticado no Twitter com sucesso.")
    case LinkedInAdapter => Sucesso(true, "Autenticado no LinkedIn com sucesso.")
    case InstagramAdapter => Sucesso(true, "Autenticado no Instagram com sucesso.")
  }

  /** The platform a post id was issued by, read from its prefix. */
  function TipoDoId(id: string): Option<TipoAdaptador>
  {
    if PrefixoTweet <= id then Some(TwitterAdapter)
    else if PrefixoLinkedIn <= id then Some(LinkedInAdapter)
    else if PrefixoInstagram <= id then Some(InstagramAdapter)
    else None
  }

  /** The three id prefixes are distinct, so a successful post's id names the platform that issued it. */
  lemma IdIdentificaPlataforma(t: TipoAdaptador, c: Conteudo, uuid: string)
    requires Publicar(t, c, uuid).resposta.sucesso
    ensures TipoDoId(Publicar(t, c, uuid).resposta.dados.value) == Some(t)
  {
    var id := Publicar(t, c, uuid).resposta.dados.value;
    assert id[..|Prefixo(t)|] == Prefixo(t);
    assert id[0] == Prefixo(t)[0];
  }
}
