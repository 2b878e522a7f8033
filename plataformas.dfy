/** The three simulated vendor APIs, each with its own call shape. Console output is not modelled;
    each call returns `Failure(message)` where the Java stub would throw. The random UUID a stub
    appends is an opaque argument. */
module Plataformas {
  import opened Wrappers

  /** The request an adapter sends to a platform, in that platform's own shape.
      API keys, credentials and tokens are hardcoded constants the stubs ignore, so they are not kept. */
  datatype Requisicao =
    | PostTweet(user: string, tweetContent: string)
    | ShareUpdate(title: string, body: string)
    | PublishPhoto(photo: Option<seq<bv8>>, caption: string)

  const PrefixoTweet: string := "TweetID:"

  const ErroFotoSemMidia: string := "[InstagramAPI] Erro: A publicação de fotos requer um arquivo de mídia."

  /** `TwitterAPI.postTweet`: never throws; the post id is `TweetID:` followed by the UUID. */
  function TwitterPostTweet(user: string, tweetContent: string, uuid: string): (r: Result<string, string>)
    ensures r.Success? && PrefixoTweet <= r.value && r.value[|PrefixoTweet|..] == uuid
  {
    Success(PrefixoTweet + uuid)
  }

  /** `LinkedInAPI.shareUpdate`: never throws and always reports success. */
  function LinkedInShareUpdate(title: string, body: string): (r: Result<bool, string>)
    ensures r.Success? && r.value
  {
    Success(true)
  }

  /** `InstagramAPI.publishPhoto`: throws exactly when the photo is null. */
  function InstagramPublishPhoto(photo: Option<seq<bv8>>, caption: string): (r: Result<(), string>)
    ensures r.Success? <==> photo.Some?
    ensures r.Failure? ==> r.error == ErroFotoSemMidia
  {
    if photo.None? then Failure(ErroFotoSemMidia) else Success(())
  }
}
