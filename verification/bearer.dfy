/** The access token the controllers read from the `Authorization` header:
    `authorization?.split(' ')[1]`, rejected when missing or empty. The scheme
    word in front of it is never looked at, although section 2.1 of RFC 6750
    expects it to be "Bearer". */
module Bearer {
  import opened Wrappers
  import opened Errors
  import Text

  const Missing := NotFoundError("access token not found")

  /** The second space-separated field of the header, if it is there and
      non-empty: the text between the first space and the next one. */
  function AccessToken(authorization: Option<string>): (r: Result<string, Error>)
    ensures r.Err? ==> r == Err(Missing)
    ensures r.Ok? <==> && authorization.Some? && ' ' in authorization.value
                       && Text.UpTo(Text.After(authorization.value, ' '), ' ') != ""
    ensures r.Ok? ==> r.value == Text.UpTo(Text.After(authorization.value, ' '), ' ')
  {
    if authorization.None? then Err(Missing)
    else
      var h := authorization.value;
      var parts := Text.Split(h, ' ');
      SecondField(h);
      if |parts| < 2 || parts[1] == "" then Err(Missing) else Ok(parts[1])
  }

  /** `split(' ')` has a second field exactly when there is a space, and
      that field runs from the first space to the next. */
  lemma SecondField(h: string)
    ensures var parts := Text.Split(h, ' ');
            && (|parts| >= 2 <==> ' ' in h)
            && (|parts| >= 2 ==> parts[1] == Text.UpTo(Text.After(h, ' '), ' '))
  {
    if ' ' in h {
      var a := Text.UpTo(h, ' ');
      var b := Text.After(h, ' ');
      assert a != h;
      Text.SplitAtFirst(a, ' ', b);
    } else {
      Text.SplitWithoutSeparator(h, ' ');
    }
  }

  /** A header "<scheme> <token>" yields the token, whatever the scheme, and
      so does one with further space-separated words after it. */
  lemma TokenAfterAnyScheme(scheme: string, token: string, rest: string)
    requires ' ' !in scheme && ' ' !in token && token != ""
    requires rest == "" || rest[0] == ' '
    ensures AccessToken(Some(scheme + " " + token + rest)) == Ok(token)
  {
    var h := scheme + " " + token + rest;
    assert h == scheme + [' '] + (token + rest);
    Text.UpToAfterFirst(scheme, ' ', token + rest);
    if rest == "" {
      assert token + rest == token;
      Text.SplitWithoutSeparator(token, ' ');
    } else {
      assert token + rest == token + [' '] + rest[1..];
      Text.SplitAtFirst(token, ' ', rest[1..]);
    }
  }

  /** A header without a space, a header ending in its first space, and a
      header with two spaces in a row all count as carrying no token. */
  lemma NoTokenCases(word: string, rest: string)
    requires ' ' !in word
    ensures AccessToken(None) == Err(Missing)
    ensures AccessToken(Some(word)) == Err(Missing)
    ensures AccessToken(Some(word + " ")) == Err(Missing)
    ensures AccessToken(Some(word + "  " + rest)) == Err(Missing)
  {
    Text.UpToAfterFirst(word, ' ', "");
    assert word + " " == word + [' '] + "";
    Text.UpToAfterFirst(word, ' ', " " + rest);
    assert word + "  " + rest == word + [' '] + (" " + rest);
    Text.UpToAfterFirst("", ' ', rest);
    assert " " + rest == "" + [' '] + rest;
  }
}
