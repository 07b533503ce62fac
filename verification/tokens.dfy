/** The credential guard run once before the polling loop starts. */
module Tokens {
  import opened Results

  /** The three credentials read from the environment; `None` when the
      variable is unset. */
  datatype Credentials = Credentials(
    practicumToken: Option<string>,
    telegramToken: Option<string>,
    telegramChatId: Option<string>)

  /** A credential is usable when it is set and is not the empty string,
      which is exactly when Python treats it as true. */
  predicate Present(c: Option<string>)
  {
    c.Some? && c.value != ""
  }

  /** Python's `all(...)` over a tuple of optional strings, evaluated left
      to right. */
  function All(xs: seq<Option<string>>): (r: bool)
    ensures r <==> forall k :: 0 <= k < |xs| ==> Present(xs[k])
    decreases |xs|
  {
    if xs == [] then true
    else if xs[0].None? || xs[0].value == "" then false
    else All(xs[1..])
  }

  /** `check_tokens`: true exactly when all three credentials are set and
      non-empty. */
  function CheckTokens(c: Credentials): (ok: bool)
    ensures ok <==> Present(c.practicumToken) && Present(c.telegramToken) && Present(c.telegramChatId)
  {
    var xs := [c.practicumToken, c.telegramToken, c.telegramChatId];
    assert xs[0] == c.practicumToken && xs[1] == c.telegramToken && xs[2] == c.telegramChatId;
    All(xs)
  }
}
