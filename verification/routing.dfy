/** The multi-service routing rule: a raw JSON-RPC method string such as
    "Foo.test" is split at the FIRST occurrence of the separator into the
    service name "Foo" and the bare method name "test", but only when that
    occurrence is at an index strictly greater than 0. Otherwise both parts
    are the raw string itself. A null method node gives null for both. */
module Routing {
  import opened Wrappers

  /** The separator a freshly constructed server uses. */
  const DefaultSeparator: char := '.'

  /** Java's `String.indexOf(char)`: the index of the first occurrence of
      `c` in `s`, or -1 when `c` does not occur. */
  function IndexOf(s: string, c: char): (r: int)
    ensures -1 <= r < |s|
    ensures r == -1 <==> c !in s
    ensures 0 <= r ==> s[r] == c && c !in s[..r]
  {
    if |s| == 0 then -1
    else if s[0] == c then 0
    else
      var k := IndexOf(s[1..], c);
      if k < 0 then -1 else k + 1
  }

  /** The raw string is split exactly when the separator occurs in it and
      it does not start with the separator (the first occurrence is then at
      an index greater than 0). */
  predicate Splits(m: string, sep: char)
  {
    sep in m && m[0] != sep
  }

  /** `getServiceName`: the prefix before the first separator when the
      separator first occurs at an index > 0, the raw string otherwise. */
  function ServiceName(methodNode: Option<string>, sep: char): (r: Option<string>)
    ensures r.None? <==> methodNode.None?
    ensures r.Some? ==> r.value <= methodNode.value
  {
    match methodNode
    case None => None
    case Some(m) =>
      var ndx := IndexOf(m, sep);
      if ndx > 0 then Some(m[..ndx]) else Some(m)
  }

  /** `getMethodName`: everything after the first separator when the
      separator first occurs at an index > 0, the raw string otherwise. */
  function MethodName(methodNode: Option<string>, sep: char): (r: Option<string>)
    ensures r.None? <==> methodNode.None?
    ensures r.Some? ==> |r.value| <= |methodNode.value|
  {
    match methodNode
    case None => None
    case Some(m) =>
      var ndx := IndexOf(m, sep);
      if ndx > 0 then Some(m[ndx + 1..]) else Some(m)
  }

  /** `IndexOf` finds a positive index exactly when `Splits` holds. */
  lemma IndexOfPositive(m: string, sep: char)
    ensures IndexOf(m, sep) > 0 <==> Splits(m, sep)
  {
  }

  /** When a split happens, the service name is the non-empty prefix before
      the first separator (so it holds no separator), the method name is all
      that follows that separator, and putting them back together with the
      separator gives the raw string. */
  lemma {:induction false} SplitRoundTrip(m: string, sep: char)
    requires Splits(m, sep)
    ensures ServiceName(Some(m), sep).Some? && MethodName(Some(m), sep).Some?
    ensures var s := ServiceName(Some(m), sep).value;
      && |s| > 0
      && sep !in s
      && m[|s|] == sep
      && MethodName(Some(m), sep).value == m[|s| + 1..]
      && s + [sep] + MethodName(Some(m), sep).value == m
  {
    IndexOfPositive(m, sep);
  }

  /** When the separator is absent, or the raw string starts with it, both
      parts are the raw string unchanged (".bar" gives ".bar" twice). */
  lemma {:induction false} NoSplitKeepsRaw(m: string, sep: char)
    requires !Splits(m, sep)
    ensures ServiceName(Some(m), sep) == Some(m)
    ensures MethodName(Some(m), sep) == Some(m)
  {
    IndexOfPositive(m, sep);
  }

  /** Splitting changes the service name, and the method name, exactly when
      `Splits` holds: a split is never a no-op. */
  lemma {:induction false} SplitChangesNames(m: string, sep: char)
    ensures ServiceName(Some(m), sep) != Some(m) <==> Splits(m, sep)
    ensures MethodName(Some(m), sep) != Some(m) <==> Splits(m, sep)
  {
    IndexOfPositive(m, sep);
    if Splits(m, sep) {
      SplitRoundTrip(m, sep);
    }
  }

  /** The inverse of the round trip: joining a non-empty, separator-free
      service name and any method name with the separator, then splitting,
      gives the two parts back. The method name may itself hold further
      separators, or be empty. */
  lemma {:induction false} JoinThenSplit(service: string, bare: string, sep: char)
    requires |service| > 0 && sep !in service
    ensures ServiceName(Some(service + [sep] + bare), sep) == Some(service)
    ensures MethodName(Some(service + [sep] + bare), sep) == Some(bare)
  {
    var m := service + [sep] + bare;
    assert m[|service|] == sep;
    assert m[..|service|] == service;
    assert Splits(m, sep) by { assert m[0] == service[0]; }
    SplitRoundTrip(m, sep);
    var s := ServiceName(Some(m), sep).value;
    assert s == service;
    assert m[|service| + 1..] == bare;
  }

  /** Routing examples: the class documentation's "Foo.test" routes to
      service "Foo", method "test"; among the edge cases, "Foo." gives method
      "", "a.b.c" keeps "b.c", and ".bar" and "bar" are not split. */
  lemma RoutingExamples()
    ensures ServiceName(Some("Foo.test"), '.') == Some("Foo")
    ensures MethodName(Some("Foo.test"), '.') == Some("test")
    ensures MethodName(Some("Foo."), '.') == Some("")
    ensures ServiceName(Some("a.b.c"), '.') == Some("a")
    ensures MethodName(Some("a.b.c"), '.') == Some("b.c")
    ensures ServiceName(Some(".bar"), '.') == Some(".bar")
    ensures MethodName(Some(".bar"), '.') == Some(".bar")
    ensures ServiceName(Some("bar"), '.') == Some("bar")
    ensures MethodName(Some("bar"), '.') == Some("bar")
  {
    JoinThenSplit("Foo", "test", '.');
    assert "Foo" + ['.'] + "test" == "Foo.test";
    JoinThenSplit("Foo", "", '.');
    assert "Foo" + ['.'] + "" == "Foo.";
    JoinThenSplit("a", "b.c", '.');
    assert "a" + ['.'] + "b.c" == "a.b.c";
    NoSplitKeepsRaw(".bar", '.');
    NoSplitKeepsRaw("bar", '.');
  }
}
