/** The unified data model shared by every adapter: the result envelope `RespostaAPI<T>`
    and the content value `Conteudo`. */
module Modelo {
  import opened Wrappers

  /** Result envelope. In the source its constructor is private, so every envelope is built
      by `Sucesso` or `Falha`; `dados` is `None` where the source stores null. */
  datatype RespostaAPI<T> = RespostaAPI(sucesso: bool, mensagem: string, dados: Option<T>)

  /** The shape every envelope built by `Sucesso` or `Falha` has: the flag says whether a payload is present. */
  predicate BemFormada<T>(r: RespostaAPI<T>)
  {
    r.sucesso <==> r.dados.Some?
  }

  /** `RespostaAPI.sucesso(dados, mensagem)`: a successful envelope carrying `dados`. */
  function Sucesso<T>(dados: T, mensagem: string): (r: RespostaAPI<T>)
    ensures r.sucesso && r.dados == Some(dados) && r.mensagem == mensagem
    ensures BemFormada(r)
  {
    RespostaAPI(true, mensagem, Some(dados))
  }

  /** `RespostaAPI.falha(mensagem)`: a failed envelope with no payload. */
  function Falha<T>(mensagem: string): (r: RespostaAPI<T>)
    ensures !r.sucesso && r.dados == None && r.mensagem == mensagem
    ensures BemFormada(r)
  {
    RespostaAPI(false, mensagem, None)
  }

  /** An envelope is well formed exactly when one of the two factory functions could have built it. */
  lemma BemFormadaSseConstruida<T>(r: RespostaAPI<T>)
    ensures BemFormada(r) <==>
              (r == Falha(r.mensagem) || (r.dados.Some? && r == Sucesso(r.dados.value, r.mensagem)))
  {
  }

  /** A post: its text (possibly empty) and optional binary media (`None` where the source passes null). */
  datatype Conteudo = Conteudo(texto: string, midia: Option<seq<bv8>>)
}
