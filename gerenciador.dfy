/** `GerenciadorMidiaSocial`: resolves its adapter once, through the factory, and delegates every
    post to it; and the demonstration the program's entry point runs. */
module Gerenciador {
  import opened Wrappers
  import opened Modelo
  import opened Adaptadores
  import opened Fabrica

  class GerenciadorMidiaSocial {
    /** The adapter resolved when the manager was built; never changes afterwards. */
    const adaptador: SocialMediaAdapter
    /** The platform the manager was configured for. */
    ghost const plataforma: Plataforma

    /** The stored adapter is the one that serves the configured platform. */
    ghost predicate Valid()
    {
      adaptador.tipo == TipoPara(plataforma)
    }

    /** Looks the adapter up in the factory's cache, constructing it only on a miss. */
    constructor (fabrica: SocialMediaFactory, plataforma: Plataforma)
      requires fabrica.Valid()
      modifies fabrica
      ensures fabrica.Valid()
      ensures Valid() && this.plataforma == plataforma
      ensures plataforma in fabrica.cache && adaptador == fabrica.cache[plataforma]
      ensures plataforma in old(fabrica.cache) ==>
                && adaptador == old(fabrica.cache)[plataforma] && fabrica.cache == old(fabrica.cache)
                && fabrica.construcoes == old(fabrica.construcoes)
      ensures plataforma !in old(fabrica.cache) ==>
                && fresh(adaptador) && fabrica.cache == old(fabrica.cache)[plataforma := adaptador]
                && fabrica.construcoes == old(fabrica.construcoes) + 1
    {
      var a := fabrica.CriarAdaptador(plataforma);
      adaptador := a;
      this.plataforma := plataforma;
    }

    /** `postarConteudo`: the envelope the stored adapter returns for `c` (the source prints it). */
    method PostarConteudo(c: Conteudo, uuid: string) returns (r: RespostaAPI<string>)
      requires Valid()
      ensures r == Publicar(TipoPara(plataforma), c, uuid).resposta
      ensures BemFormada(r) && (r.sucesso <==> PodePublicar(TipoPara(plataforma), c))
    {
      r := Publicar(adaptador.tipo, c, uuid).resposta;
    }
  }

  /** The program's demonstration on a fresh cache: text to Twitter and LinkedIn succeeds, text alone
      to Instagram is refused, text with media to Instagram succeeds, and two later requests for the
      Twitter adapter return the very instance the first manager received. The UUIDs are parameters. */
  method Demonstracao(u1: string, u2: string, u3: string, u4: string)
    returns (twitter: RespostaAPI<string>, linkedin: RespostaAPI<string>,
             instagramSemMidia: RespostaAPI<string>, instagramComMidia: RespostaAPI<string>,
             mesmaInstancia: bool)
    ensures twitter.sucesso && twitter.dados.Some? && Plataformas.PrefixoTweet <= twitter.dados.value
    ensures linkedin.sucesso && linkedin.dados.Some? && PrefixoLinkedIn <= linkedin.dados.value
    ensures !instagramSemMidia.sucesso && instagramSemMidia.mensagem == MsgInstagramSemMidia
    ensures instagramComMidia.sucesso && instagramComMidia.dados.Some?
    ensures PrefixoInstagram <= instagramComMidia.dados.value
    ensures mesmaInstancia
  {
    var postTexto := Conteudo("Esta é uma publicação de texto via meu sistema unificado.", None);
    var postComImagem := Conteudo("Confira esta incrível foto de paisagem!", Some([1, 2, 3]));
    var fabrica := new SocialMediaFactory();

    var gerenciadorTwitter := new GerenciadorMidiaSocial(fabrica, TWITTER);
    twitter := gerenciadorTwitter.PostarConteudo(postTexto, u1);
    assert fabrica.cache.Keys == {TWITTER} && fabrica.construcoes == 1;

    var gerenciadorLinkedIn := new GerenciadorMidiaSocial(fabrica, LINKEDIN);
    linkedin := gerenciadorLinkedIn.PostarConteudo(postTexto, u2);
    assert fabrica.cache.Keys == {TWITTER, LINKEDIN} && fabrica.construcoes == 2;

    var gerenciadorInstagram := new GerenciadorMidiaSocial(fabrica, INSTAGRAM);
    instagramSemMidia := gerenciadorInstagram.PostarConteudo(postTexto, u3);
    instagramComMidia := gerenciadorInstagram.PostarConteudo(postComImagem, u4);
    assert fabrica.construcoes == 3;

    var twitter1 := fabrica.CriarAdaptador(TWITTER);
    var twitter2 := fabrica.CriarAdaptador(TWITTER);
    assert twitter1 == gerenciadorTwitter.adaptador;
    assert fabrica.construcoes == 3;  // no construction after the first three
    mesmaInstancia := twitter1 == twitter2;
  }
}
