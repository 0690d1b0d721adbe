/** Error classification (pkg/ovh/errors.go) through any depth of wrapping. */
module ApiErrors {

  /** An API error with its code, any other error with its text, or an error wrapped by
      fmt.Errorf(prefix + "%w"). */
  datatype Err = Api(code: int, text: string) | Text(text: string) | Wrap(prefix: string, inner: Err)

  function Message(e: Err): string {
    match e
    case Api(_, text) => text
    case Text(text) => text
    case Wrap(prefix, inner) => prefix + Message(inner)
  }

  datatype Code = Code(code: int) | NoCode

  /** errors.As: the API error inside, if there is one. */
  function CodeOf(e: Err): Code {
    match e
    case Api(code, _) => Code(code)
    case Text(_) => NoCode
    case Wrap(_, inner) => CodeOf(inner)
  }

  /** strings.Contains, with the place as a witness. */
  ghost predicate At(s: string, needle: string, i: nat) { i + |needle| <= |s| && s[i..i + |needle|] == needle }

  ghost predicate Contains(s: string, needle: string) { exists i: nat :: At(s, needle, i) }

  ghost predicate IsNotFound(e: Err) {
    match CodeOf(e)
    case Code(c) => c == 404
    case NoCode => Contains(Message(e), "404") || Contains(Message(e), "not found")
  }

  ghost predicate IsConflict(e: Err) { CodeOf(e) == Code(409) }

  ghost predicate IsForbidden(e: Err) { CodeOf(e) == Code(403) }

  ghost predicate IsUnauthorized(e: Err) { CodeOf(e) == Code(401) }

  ghost predicate IsAlreadyDeleting(e: Err) {
    IsConflict(e) && (Contains(Message(e), "PENDING_DELETE") || Contains(Message(e), "PENDING_UPDATE"))
  }

  ghost predicate IsRetryable(e: Err) {
    match CodeOf(e)
    case Code(c) => c == 429 || c == 500 || c == 502 || c == 503 || c == 504
    case NoCode =>
      || Contains(Message(e), "connection refused") || Contains(Message(e), "connection reset")
      || Contains(Message(e), "timeout") || Contains(Message(e), "temporary failure")
  }

  /** An error wrapped by each prefix in turn, the last one outermost. */
  function Wrapped(prefixes: seq<string>, e: Err): Err {
    if prefixes == [] then e else Wrap(prefixes[|prefixes| - 1], Wrapped(prefixes[..|prefixes| - 1], e))
  }

  // ---- API errors ----

  lemma {:induction false} WrappingKeepsCode(prefixes: seq<string>, e: Err)
    ensures CodeOf(Wrapped(prefixes, e)) == CodeOf(e)
  {
    if prefixes != [] { WrappingKeepsCode(prefixes[..|prefixes| - 1], e); }
  }

  /** For API errors the classes depend on the code only, however often and in whatever words the
      error is wrapped, and no error is in two of them. */
  lemma ApiClassesByCode(prefixes: seq<string>, code: int, text: string, text2: string)
    ensures var e, plain := Wrapped(prefixes, Api(code, text)), Api(code, text2);
            && (IsNotFound(e) <==> IsNotFound(plain)) && (IsConflict(e) <==> IsConflict(plain))
            && (IsRetryable(e) <==> IsRetryable(plain))
            && (IsForbidden(e) <==> IsForbidden(plain)) && (IsUnauthorized(e) <==> IsUnauthorized(plain))
            && (IsNotFound(e) <==> code == 404) && (IsConflict(e) <==> code == 409)
            && (IsRetryable(e) <==> code in {429, 500, 502, 503, 504})
            && (IsForbidden(e) <==> code == 403) && (IsUnauthorized(e) <==> code == 401)
            && !(IsNotFound(e) && IsConflict(e)) && !(IsNotFound(e) && IsRetryable(e)) && !(IsConflict(e) && IsRetryable(e))
  {
    WrappingKeepsCode(prefixes, Api(code, text));
  }

  // ---- Text errors ----

  /** Every prefix in the client ends in ": ", and no text it looks for contains a colon, so a text
      is found in a wrapped message exactly when it is in the prefix or in what was wrapped. */
  lemma ContainsInWrapped(prefix: string, message: string, needle: string)
    requires needle != "" && ':' !in needle
    ensures Contains(prefix + ": " + message, needle) <==> Contains(prefix, needle) || Contains(" " + message, needle)
  {
    var s := prefix + ": " + message;
    if i: nat :| At(s, needle, i) {
      var k := |prefix|;
      assert s[k] == ':';
      assert forall j :: i <= j < i + |needle| ==> s[j] == needle[j - i] by {
        forall j | i <= j < i + |needle| ensures s[j] == needle[j - i] { assert s[i..i + |needle|][j - i] == s[j]; }
      }
      assert !(i <= k < i + |needle|);
      if i + |needle| <= k {
        assert prefix[i..i + |needle|] == s[i..i + |needle|];
        assert At(prefix, needle, i);
      } else {
        var j := i - k - 1;
        assert (" " + message)[j..j + |needle|] == s[i..i + |needle|];
        assert At(" " + message, needle, j);
      }
    }
    if i: nat :| At(prefix, needle, i) {
      assert s[i..i + |needle|] == prefix[i..i + |needle|];
      assert At(s, needle, i);
    }
    if i: nat :| At(" " + message, needle, i) {
      var j := i + |prefix| + 1;
      assert s[j..j + |needle|] == (" " + message)[i..i + |needle|];
      assert At(s, needle, j);
    }
  }

  /** The blank after the colon matters to no needle, since none begins with a blank. */
  lemma LeadingBlank(message: string, needle: string)
    requires needle != "" && needle[0] != ' '
    ensures Contains(" " + message, needle) <==> Contains(message, needle)
  {
    var s := " " + message;
    if i: nat :| At(s, needle, i) {
      assert s[0] == ' ' && needle[0] == s[i..i + |needle|][0] == s[i];
      assert message[i - 1..i - 1 + |needle|] == s[i..i + |needle|];
      assert At(message, needle, i - 1);
    }
    if i: nat :| At(message, needle, i) {
      assert s[i + 1..i + 1 + |needle|] == message[i..i + |needle|];
      assert At(s, needle, i + 1);
    }
  }

  lemma ContainsIff(prefix: string, message: string, needle: string)
    requires needle != "" && ':' !in needle && needle[0] != ' '
    ensures Contains(prefix + ": " + message, needle) <==> Contains(prefix, needle) || Contains(message, needle)
  {
    ContainsInWrapped(prefix, message, needle);
    LeadingBlank(message, needle);
  }

  function Colons(prefixes: seq<string>): seq<string> {
    seq(|prefixes|, i requires 0 <= i < |prefixes| => prefixes[i] + ": ")
  }

  /** Through any number of wrappings, a text occurs in the message exactly when it occurs in the
      original text or in some prefix. */
  lemma {:induction false} ContainsThroughWrapping(prefixes: seq<string>, text: string, needle: string)
    requires needle != "" && ':' !in needle && needle[0] != ' '
    ensures Contains(Message(Wrapped(Colons(prefixes), Text(text))), needle)
            <==> Contains(text, needle) || exists i :: 0 <= i < |prefixes| && Contains(prefixes[i], needle)
  {
    if prefixes != [] {
      var n := |prefixes| - 1;
      var inner := Wrapped(Colons(prefixes[..n]), Text(text));
      assert Colons(prefixes)[..n] == Colons(prefixes[..n]);
      ContainsThroughWrapping(prefixes[..n], text, needle);
      ContainsIff(prefixes[n], Message(inner), needle);
      assert forall i :: 0 <= i < n ==> prefixes[..n][i] == prefixes[i];
    }
  }

  /** So a text error counts as not found exactly when its own text or some prefix says so: wrapping
      can only turn the class from false to true, and an identifier in a prefix can do it. */
  lemma NotFoundThroughWrapping(prefixes: seq<string>, text: string)
    ensures IsNotFound(Wrapped(Colons(prefixes), Text(text)))
            <==> IsNotFound(Text(text))
                 || exists i :: 0 <= i < |prefixes| && (Contains(prefixes[i], "404") || Contains(prefixes[i], "not found"))
    ensures IsNotFound(Text(text)) <==> Contains(text, "404") || Contains(text, "not found")
  {
    WrappingKeepsCode(Colons(prefixes), Text(text));
    ContainsThroughWrapping(prefixes, text, "404");
    ContainsThroughWrapping(prefixes, text, "not found");
  }

  ghost predicate RetryableText(s: string) {
    || Contains(s, "connection refused") || Contains(s, "connection reset")
    || Contains(s, "timeout") || Contains(s, "temporary failure")
  }

  /** The same for the retryable class. */
  lemma RetryableThroughWrapping(prefixes: seq<string>, text: string)
    ensures IsRetryable(Wrapped(Colons(prefixes), Text(text)))
            <==> IsRetryable(Text(text)) || exists i :: 0 <= i < |prefixes| && RetryableText(prefixes[i])
    ensures IsRetryable(Text(text)) <==> RetryableText(text)
  {
    WrappingKeepsCode(Colons(prefixes), Text(text));
    ContainsThroughWrapping(prefixes, text, "connection refused");
    ContainsThroughWrapping(prefixes, text, "connection reset");
    ContainsThroughWrapping(prefixes, text, "timeout");
    ContainsThroughWrapping(prefixes, text, "temporary failure");
  }

  /** What GetInstance makes of a refused connection when the instance ID contains "404": an error
      both retryable and not found, on which the machine controller forgets the instance. */
  lemma RefusedConnectionNotFound(before: string, after: string)
    ensures var e := Wrap("getting instance " + before + "404" + after + ": ", Text("connection refused"));
            IsNotFound(e) && IsRetryable(e) && !IsNotFound(e.inner)
  {
    var id := "getting instance " + before + "404" + after;
    var k := |"getting instance " + before|;
    assert id[k..k + 3] == "404";
    assert At(id, "404", k);
    ContainsIff(id, "connection refused", "404");
    ContainsIff(id, "connection refused", "connection refused");
    assert At("connection refused", "connection refused", 0);
    PlainRefusal();
  }

  lemma PlainRefusal()
    ensures !IsNotFound(Text("connection refused"))
  {
    var s := "connection refused";
    forall i: nat ensures !At(s, "404", i) { if At(s, "404", i) { StartsAt(s, "404", i); } }
    forall i: nat ensures !At(s, "not found", i) { if At(s, "not found", i) { StartsAt(s, "not found", i); } }
  }

  lemma StartsAt(s: string, needle: string, i: nat)
    requires At(s, needle, i) && |needle| >= 2
    ensures i + 1 < |s| && s[i] == needle[0] && s[i + 1] == needle[1]
  {
  }

  /** Of the conflicts, a pending state anywhere in the message makes one count as deleted; wrapping
      can only add to that. */
  lemma AlreadyDeletingThroughWrapping(prefix: string, e: Err)
    ensures IsAlreadyDeleting(Wrap(prefix + ": ", e))
            <==> IsConflict(e) && (IsAlreadyDeleting(e) || Contains(prefix, "PENDING_DELETE") || Contains(prefix, "PENDING_UPDATE"))
    ensures IsAlreadyDeleting(e) ==> !IsNotFound(e) && !IsRetryable(e)
  {
    ContainsIff(prefix, Message(e), "PENDING_DELETE");
    ContainsIff(prefix, Message(e), "PENDING_UPDATE");
  }
}
