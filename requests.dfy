/**
 * The outbound requests `Send` builds: the exact URL, the request value, the
 * point at which building fails, and a decoder that recovers the chat and the
 * text from a URL.
 */
module Requests {
  import opened Wrappers

  const ApiPrefix: string := "https://api.telegram.org/bot"
  const MethodPath: string := "/sendMessage?chat_id="
  const TextParam: string := "&text="

  /**
   * The URL for one chat, built by plain concatenation: neither the token, the
   * chat id nor the message is escaped.
   */
  function SendUrl(token: string, chatId: string, message: string): (url: string)
    ensures url == "https://api.telegram.org/bot" + token + "/sendMessage?chat_id=" + chatId + "&text=" + message
    ensures |url| == 55 + |token| + |chatId| + |message|
  {
    ApiPrefix + token + MethodPath + chatId + TextParam + message
  }

  /** A built HTTP request: its verb and its URL (the body is always empty). */
  datatype Request = Request(verb: string, url: string)

  /** The error `Send` returns when `http.NewRequest` refuses a URL; it names the URL whose request could not be built. */
  datatype SendError = RequestRejected(url: string)

  /** The request `Send` pushes for one chat once `http.NewRequest` accepts its URL. */
  function SendRequest(token: string, chatId: string, message: string): (r: Request)
    ensures r.verb == "POST" && r.url == SendUrl(token, chatId, message)
  {
    Request("POST", SendUrl(token, chatId, message))
  }

  /**
   * The requests for `ids`, one per chat, in the order of `ids`.
   */
  function SendRequests(token: string, ids: seq<string>, message: string): (rs: seq<Request>)
    ensures |rs| == |ids|
    ensures forall i :: 0 <= i < |ids| ==> rs[i] == SendRequest(token, ids[i], message)
    decreases |ids|
  {
    if ids == [] then []
    else [SendRequest(token, ids[0], message)] + SendRequests(token, ids[1..], message)
  }

  /** Building one more request extends the list at its end. */
  lemma SendRequestsSnoc(token: string, ids: seq<string>, message: string, i: nat)
    requires i < |ids|
    ensures SendRequests(token, ids[..i + 1], message)
         == SendRequests(token, ids[..i], message) + [SendRequest(token, ids[i], message)]
  {
    var a := SendRequests(token, ids[..i + 1], message);
    var b := SendRequests(token, ids[..i], message) + [SendRequest(token, ids[i], message)];
    assert |a| == |b|;
    forall j | 0 <= j < |a| ensures a[j] == b[j] {
      assert ids[..i + 1][j] == ids[j];
      if j < i { assert ids[..i][j] == ids[j]; }
    }
  }

  /**
   * The index of the first chat whose URL `accepts` (standing for
   * `http.NewRequest`) refuses, or `|ids|` when it refuses none.
   */
  function FirstRejected(token: string, ids: seq<string>, message: string, accepts: string -> bool): (k: nat)
    ensures k <= |ids|
    ensures forall j :: 0 <= j < k ==> accepts(SendUrl(token, ids[j], message))
    ensures k < |ids| ==> !accepts(SendUrl(token, ids[k], message))
    decreases |ids|
  {
    if ids == [] then 0
    else if !accepts(SendUrl(token, ids[0], message)) then 0
    else 1 + FirstRejected(token, ids[1..], message, accepts)
  }

  /** Scanning the chats in order, the i-th URL is accepted exactly when i is before the first refusal. */
  lemma FirstRejectedStep(token: string, ids: seq<string>, message: string, accepts: string -> bool, i: nat)
    requires i < |ids| && i <= FirstRejected(token, ids, message, accepts)
    ensures accepts(SendUrl(token, ids[i], message)) <==> i < FirstRejected(token, ids, message, accepts)
  {
  }

  /** The index of the first `c` in `s`, or `|s|` when there is none. */
  function IndexOf(s: string, c: char): (i: nat)
    ensures i <= |s|
    ensures forall j :: 0 <= j < i ==> s[j] != c
    ensures i < |s| ==> s[i] == c
    decreases |s|
  {
    if s == [] then 0
    else if s[0] == c then 0
    else 1 + IndexOf(s[1..], c)
  }

  /**
   * Splits a URL built by `SendUrl` for `token` back into its chat id (up to the
   * first '&' after `chat_id=`) and its text (everything after `&text=`). This
   * is a plain string split used to show what the URL string determines, not
   * how `net/url` or the server read it: they cut a fragment at '#', decode
   * `%xx` and '+', and treat a later `&text=` as a second parameter.
   */
  function DecodeSendUrl(url: string, token: string): Option<(string, string)>
  {
    var head := ApiPrefix + token + MethodPath;
    if |url| < |head| || url[..|head|] != head then None
    else
      var rest := url[|head|..];
      var i := IndexOf(rest, '&');
      if |rest| - i < |TextParam| || rest[i..i + |TextParam|] != TextParam then None
      else Some((rest[..i], rest[i + |TextParam|..]))
  }

  /** For chat ids without '&', the URL string determines the chat id and the raw message (injectivity). */
  lemma {:induction false} DecodeSendUrlInverts(token: string, chatId: string, message: string)
    requires '&' !in chatId
    ensures DecodeSendUrl(SendUrl(token, chatId, message), token) == Some((chatId, message))
  {
    var head := ApiPrefix + token + MethodPath;
    var url := SendUrl(token, chatId, message);
    var rest := chatId + TextParam + message;
    assert url == head + rest;
    assert url[..|head|] == head;
    assert url[|head|..] == rest;
    var i := IndexOf(rest, '&');
    assert rest[|chatId|] == '&';
    assert i == |chatId|;
    assert rest[i..i + |TextParam|] == TextParam;
    assert rest[..i] == chatId;
    assert rest[i + |TextParam|..] == message;
  }

  /** Whatever the decoder accepts is exactly the URL of the chat and text it returns. */
  lemma DecodeSendUrlSound(url: string, token: string, chatId: string, message: string)
    requires DecodeSendUrl(url, token) == Some((chatId, message))
    ensures url == SendUrl(token, chatId, message)
    ensures '&' !in chatId
  {
  }

  /**
   * Because the message is not escaped, different chats and messages can give
   * the same URL: chat "1" with text "2&text=3" reads like chat "1&text=2" with text "3".
   */
  lemma UnescapedUrlsCollide(token: string)
    ensures SendUrl(token, "1", "2&text=3") == SendUrl(token, "1&text=2", "3")
  {
  }
}
