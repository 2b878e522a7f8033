/** `Plataforma` and `SocialMediaFactory`: a get-or-create cache that hands out one adapter
    instance per platform. The source keeps the cache in a static field; here it is the
    `cache` field of one factory object, used sequentially by a single owner. */
module Fabrica {
  import opened Adaptadores

  /** The closed set of supported platforms. */
  datatype Plataforma = TWITTER | LINKEDIN | INSTAGRAM

  /** The `switch` inside `criarAdaptador`: which adapter class serves each platform. Its `default`
      branch cannot be reached with a closed datatype and is not modelled. */
  function TipoPara(p: Plataforma): (t: TipoAdaptador)
    ensures p == TWITTER <==> t == TwitterAdapter
    ensures p == LINKEDIN <==> t == LinkedInAdapter
    ensures p == INSTAGRAM <==> t == InstagramAdapter
  {
    match p
    case TWITTER => TwitterAdapter
    case LINKEDIN => LinkedInAdapter
    case INSTAGRAM => InstagramAdapter
  }

  /** An adapter instance; object identity is what the cache preserves. */
  class SocialMediaAdapter {
    const tipo: TipoAdaptador

    constructor (tipo: TipoAdaptador)
      ensures this.tipo == tipo
    {
      this.tipo := tipo;
    }
  }

  /** The cache seen abstractly: the adapter class stored for each platform. */
  type Registro = map<Plataforma, TipoAdaptador>

  /** One `computeIfAbsent` call on the abstract cache: a present key is kept as it is, an absent key is
      bound to a new adapter of the matching class, and no other key is touched. */
  function ObterOuCriar(m: Registro, p: Plataforma): (m': Registro)
    ensures m'.Keys == m.Keys + {p}
    ensures forall q :: q in m ==> m'[q] == m[q]
    ensures p !in m ==> m'[p] == TipoPara(p)
  {
    if p in m then m else m[p := TipoPara(p)]
  }

  /** Every cached adapter is of the class that serves its key. */
  predicate Coerente(m: Registro)
  {
    forall q :: q in m ==> m[q] == TipoPara(q)
  }

  /** The platforms requested by a sequence of calls. */
  function Pedidas(ps: seq<Plataforma>): set<Plataforma>
  {
    set q | q in ps
  }

  /** The cache after the calls `criarAdaptador(ps[0])`, ..., `criarAdaptador(ps[|ps| - 1])`. */
  function Apos(m: Registro, ps: seq<Plataforma>): Registro
    decreases |ps|
  {
    if ps == [] then m else Apos(ObterOuCriar(m, ps[0]), ps[1..])
  }

  /** How many adapters those calls construct. */
  function Criacoes(m: Registro, ps: seq<Plataforma>): nat
    decreases |ps|
  {
    if ps == [] then 0
    else (if ps[0] in m then 0 else 1) + Criacoes(ObterOuCriar(m, ps[0]), ps[1..])
  }

  /** The platforms requested by a non-empty sequence: its first request and those of the rest. */
  lemma PedidasCons(ps: seq<Plataforma>)
    requires ps != []
    ensures Pedidas(ps) == {ps[0]} + Pedidas(ps[1..])
  {
  }

  /** Over any sequence of calls the cache only grows, by exactly the requested platforms, keeps every
      entry it had, and stays coherent. */
  lemma {:induction false} AposCresce(m: Registro, ps: seq<Plataforma>)
    ensures Apos(m, ps).Keys == m.Keys + Pedidas(ps)
    ensures forall q :: q in m ==> Apos(m, ps)[q] == m[q]
    ensures Coerente(m) ==> Coerente(Apos(m, ps))
    decreases |ps|
  {
    if ps != [] {
      AposCresce(ObterOuCriar(m, ps[0]), ps[1..]);
      PedidasCons(ps);
    }
  }

  /** Exactly one adapter is constructed per requested platform that was not cached before. */
  lemma {:induction false} UmaCriacaoPorPlataforma(m: Registro, ps: seq<Plataforma>)
    ensures Criacoes(m, ps) == |Pedidas(ps) - m.Keys|
    decreases |ps|
  {
    if ps != [] {
      var p, m1 := ps[0], ObterOuCriar(m, ps[0]);
      UmaCriacaoPorPlataforma(m1, ps[1..]);
      PedidasCons(ps);
      DiferencaCons(p, Pedidas(ps[1..]), m.Keys);
    }
  }

  /** Requesting `p` first and then `P` misses the cache once more than requesting `P` after `p` is
      cached, when `p` was absent. */
  lemma DiferencaCons(p: Plataforma, P: set<Plataforma>, K: set<Plataforma>)
    ensures p in K ==> ({p} + P) - K == P - K
    ensures p !in K ==> |({p} + P) - K| == 1 + |P - (K + {p})|
  {
    if p !in K {
      assert ({p} + P) - K == {p} + (P - (K + {p}));
    }
  }

  /** Idempotence: once a sequence of calls has run, running it again constructs nothing and leaves
      the cache as it was. */
  lemma {:induction false} RepetirNaoCria(m: Registro, ps: seq<Plataforma>)
    ensures Criacoes(Apos(m, ps), ps) == 0
    ensures Apos(Apos(m, ps), ps) == Apos(m, ps)
  {
    var m1 := Apos(m, ps);
    AposCresce(m, ps);
    AposCresce(m1, ps);
    UmaCriacaoPorPlataforma(m1, ps);
    assert Pedidas(ps) - m1.Keys == {};
  }

  /** `SocialMediaFactory`: the shared adapter cache. */
  class SocialMediaFactory {
    var cache: map<Plataforma, SocialMediaAdapter>
    /** Adapters constructed so far by this factory. */
    ghost var construcoes: nat

    /** Each cached adapter serves its key, and every adapter ever constructed sits in the cache:
        one instance per platform. */
    ghost predicate Valid()
      reads this
    {
      && (forall q :: q in cache ==> cache[q].tipo == TipoPara(q))
      && construcoes == |cache|
    }

    /** The abstract view of `cache`. */
    ghost function Tipos(): (m: Registro)
      reads this
      requires Valid()
      ensures m.Keys == cache.Keys && Coerente(m)
    {
      map q | q in cache :: cache[q].tipo
    }

    /** The cache as the program starts: empty. */
    constructor ()
      ensures Valid() && cache == map[] && construcoes == 0
    {
      cache := map[];
      construcoes := 0;
    }

    /** `criarAdaptador`: returns the cached adapter for `p`, constructing and caching one only when
        `p` is absent; no other entry changes. */
    method CriarAdaptador(p: Plataforma) returns (a: SocialMediaAdapter)
      requires Valid()
      modifies this
      ensures Valid()
      ensures p in cache && a == cache[p] && a.tipo == TipoPara(p)
      ensures p in old(cache) ==> a == old(cache)[p] && cache == old(cache) && construcoes == old(construcoes)
      ensures p !in old(cache) ==> fresh(a) && cache == old(cache)[p := a] && construcoes == old(construcoes) + 1
      ensures Tipos() == ObterOuCriar(old(Tipos()), p)
      ensures construcoes == old(construcoes) + Criacoes(old(Tipos()), [p])
    {
      if p in cache {
        a := cache[p];
      } else {
        a := new SocialMediaAdapter(TipoPara(p));
        cache := cache[p := a];
        construcoes := construcoes + 1;
      }
    }
  }
}
