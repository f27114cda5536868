/** The few operations of Go's strings package the operator relies on. */
module Text {

  function LowerChar(c: char): char
  {
    if 'A' <= c <= 'Z' then (c as int - 'A' as int + 'a' as int) as char else c
  }

  /** Lower-casing of the ASCII letters. */
  function ToLower(s: string): (r: string)
    ensures |r| == |s|
    ensures forall i :: 0 <= i < |s| ==> r[i] == LowerChar(s[i])
  {
    seq(|s|, i requires 0 <= i < |s| => LowerChar(s[i]))
  }

  predicate IsCapital(c: char) { 'A' <= c <= 'Z' }

  /** No capital letter is left, what has none is left alone, and only letters change. */
  lemma {:induction false} LoweredMeaning(s: string, i: nat)
    requires i < |s|
    ensures !IsCapital(ToLower(s)[i])
    ensures if IsCapital(s[i]) then ToLower(s)[i] as int == s[i] as int + 32 else ToLower(s)[i] == s[i]
  {
  }

  predicate EqualFold(a: string, b: string)
  {
    ToLower(a) == ToLower(b)
  }

  // ----- splitting and trimming -----

  /** Go's unicode.IsSpace. */
  predicate IsSpace(c: char)
  {
    || '\t' <= c <= '\r' || c == ' ' || c == '\U{85}' || c == '\U{A0}' || c == '\U{1680}'
       || '\U{2000}' <= c <= '\U{200A}'
    || c == '\U{2028}' || c == '\U{2029}' || c == '\U{202F}' || c == '\U{205F}' || c == '\U{3000}'
  }

  function TrimLeft(s: string): string
  {
    if s != "" && IsSpace(s[0]) then TrimLeft(s[1..]) else s
  }

  function TrimRight(s: string): string
  {
    if s != "" && IsSpace(s[|s| - 1]) then TrimRight(s[..|s| - 1]) else s
  }

  function TrimSpace(s: string): string { TrimRight(TrimLeft(s)) }

  /** The text before and after the first occurrence of `sep`. */
  function Cut(s: string, sep: char): (string, string)
    requires sep in s
  {
    if s[0] == sep then ("", s[1..])
    else
      assert s == [s[0]] + s[1..];
      var (a, b) := Cut(s[1..], sep);
      ([s[0]] + a, b)
  }

  function Glue(c: char, rest: seq<string>, sep: char): (r: seq<string>)
    requires rest != []
    ensures r != []
  {
    if c == sep then [""] + rest else [[c] + rest[0]] + rest[1..]
  }

  /** All the parts between occurrences of `sep`; at least one, possibly empty. */
  function Split(s: string, sep: char): (r: seq<string>)
    ensures r != []
  {
    if s == "" then [""] else Glue(s[0], Split(s[1..], sep), sep)
  }

  function Join(parts: seq<string>, sep: char): string
  {
    if parts == [] then "" else if |parts| == 1 then parts[0] else parts[0] + [sep] + Join(parts[1..], sep)
  }

  /** The results of `f` on all the items, one after the other. */
  function FlatMap<S, T>(f: S -> seq<T>, items: seq<S>): seq<T>
  {
    if items == [] then [] else f(items[0]) + FlatMap(f, items[1..])
  }

  lemma {:induction false} FlatMapConcat<S, T>(f: S -> seq<T>, a: seq<S>, b: seq<S>)
    ensures FlatMap(f, a + b) == FlatMap(f, a) + FlatMap(f, b)
  {
    if a == [] {
      assert a + b == b;
    } else {
      assert (a + b)[1..] == a[1..] + b;
      FlatMapConcat(f, a[1..], b);
    }
  }

  lemma {:induction false} FlatMapOne<S, T>(f: S -> seq<T>, item: S)
    ensures FlatMap(f, [item]) == f(item)
  {
    assert [item][1..] == [];
  }

  lemma {:induction false} FlatMapNext<S, T>(f: S -> seq<T>, items: seq<S>, i: int)
    requires 0 <= i < |items|
    ensures FlatMap(f, items[..i + 1]) == FlatMap(f, items[..i]) + f(items[i])
  {
    assert items[..i + 1] == items[..i] + [items[i]];
    FlatMapConcat(f, items[..i], [items[i]]);
    FlatMapOne(f, items[i]);
  }

  lemma {:induction false} SplitFirst(c: char, s: string, sep: char)
    ensures Split([c] + s, sep) == if c == sep then [""] + Split(s, sep) else
        [[c] + Split(s, sep)[0]]
        + Split(s, sep)[1..]
  {
    assert ([c] + s)[1..] == s;
  }

  function ExtendLast(parts: seq<string>, c: char): seq<string>
    requires parts != []
  {
    parts[..|parts| - 1] + [parts[|parts| - 1] + [c]]
  }

  lemma {:induction false} ExtendTail(head: string, rest: seq<string>, c: char)
    requires rest != []
    ensures ExtendLast([head] + rest, c) == [head] + ExtendLast(rest, c)
  {
    var n := |rest| - 1;
    assert ([head] + rest)[..n + 1] == [head] + rest[..n];
  }

  lemma {:induction false} GlueExtends(x: char, rest: seq<string>, c: char, sep: char)
    requires rest != []
    ensures Glue(x, ExtendLast(rest, c), sep) == ExtendLast(Glue(x, rest, sep), c)
  {
    if x == sep {
      ExtendTail("", rest, c);
    } else if |rest| == 1 {
      assert [x] + (rest[0] + [c]) == [x] + rest[0] + [c];
    } else {
      var tail := rest[1..];
      assert rest == [rest[0]] + tail;
      ExtendTail(rest[0], tail, c);
      ExtendTail([x] + rest[0], tail, c);
      assert ExtendLast(rest, c)[1..] == ExtendLast(tail, c);
    }
  }

  lemma {:induction false} GlueAppends(x: char, rest: seq<string>, last: string, sep: char)
    requires rest != []
    ensures Glue(x, rest + [last], sep) == Glue(x, rest, sep) + [last]
  {
    if x != sep {
      assert (rest + [last])[1..] == rest[1..] + [last];
    }
  }

  /** Appending a separator opens a new part; appending anything else extends the last part. */
  lemma {:induction false} SplitLast(s: string, c: char, sep: char)
    ensures Split(s + [c], sep) == if c == sep then Split(s, sep) + [""] else ExtendLast(Split(s, sep), c)
  {
    if s == "" {
      assert s + [c] == [c] && [c][1..] == "";
      assert Split([c], sep) == Glue(c, [""], sep);
      assert [c] + "" == "" + [c];
    } else {
      assert (s + [c])[1..] == s[1..] + [c];
      SplitLast(s[1..], c, sep);
      GlueExtends(s[0], Split(s[1..], sep), c, sep);
      GlueAppends(s[0], Split(s[1..], sep), "", sep);
    }
  }

  lemma {:induction false} SplitPrefix(a: string, s: string, sep: char)
    requires sep !in a
    ensures Split(a + [sep] + s, sep) == [a] + Split(s, sep)
  {
    var whole := a + [sep] + s;
    if a == "" {
      assert whole[1..] == s;
    } else {
      assert whole[1..] == a[1..] + [sep] + s;
      SplitPrefix(a[1..], s, sep);
      assert a == [a[0]] + a[1..];
    }
  }

  lemma {:induction false} SplitWhole(a: string, sep: char)
    requires sep !in a
    ensures Split(a, sep) == [a]
  {
    if a != "" {
      SplitWhole(a[1..], sep);
      assert a == [a[0]] + a[1..];
    }
  }

  /** Parts free of the separator survive joining and splitting. */
  lemma {:induction false} SplitJoin(parts: seq<string>, sep: char)
    requires parts != [] && forall i :: 0 <= i < |parts| ==> sep !in parts[i]
    ensures Split(Join(parts, sep), sep) == parts
  {
    if |parts| == 1 {
      SplitWhole(parts[0], sep);
    } else {
      SplitJoin(parts[1..], sep);
      SplitPrefix(parts[0], Join(parts[1..], sep), sep);
    }
  }

  lemma {:induction false} JoinFour(a: string, b: string, c: string, d: string, sep: char)
    ensures Join([a, b, c], sep) == a + [sep] + b + [sep] + c
    ensures Join([a, b, c, d], sep) == a + [sep] + b + [sep] + c + [sep] + d
  {
    assert [a, b, c][1..] == [b, c] && [b, c][1..] == [c];
    assert [a, b, c, d][1..] == [b, c, d] && [b, c, d][1..] == [c, d] && [c, d][1..] == [d];
    assert Join([b, c], sep) == b + [sep] + c;
    assert Join([c, d], sep) == c + [sep] + d;
    assert Join([b, c, d], sep) == b + [sep] + Join([c, d], sep);
  }

  lemma {:induction false} CutAt(a: string, b: string, sep: char)
    requires sep !in a
    ensures sep in a + [sep] + b
    ensures Cut(a + [sep] + b, sep) == (a, b)
  {
    var whole := a + [sep] + b;
    assert whole[|a|] == sep;
    if a == "" {
      assert whole[1..] == b;
    } else {
      assert whole[1..] == a[1..] + [sep] + b;
      CutAt(a[1..], b, sep);
      assert a == [a[0]] + a[1..];
    }
  }

  lemma {:induction false} TrimNothing()
    ensures TrimSpace("") == ""
  {
  }

  lemma {:induction false} TrimLead(c: char, s: string)
    requires IsSpace(c)
    ensures TrimSpace([c] + s) == TrimSpace(s)
  {
    assert ([c] + s)[1..] == s;
  }

  lemma {:induction false} TrimTrail(s: string, c: char)
    requires IsSpace(c)
    ensures TrimSpace(s + [c]) == TrimSpace(s)
  {
    if s == "" {
      assert s + [c] == [c] + s;
      TrimLead(c, s);
    } else if IsSpace(s[0]) {
      assert (s + [c])[1..] == s[1..] + [c];
      TrimTrail(s[1..], c);
    } else {
      assert (s + [c])[..|s|] == s;
    }
  }

  lemma {:induction false} TrimAllSpace(s: string)
    requires forall c :: c in s ==> IsSpace(c)
    ensures TrimSpace(s) == ""
  {
    if s != "" {
      TrimAllSpace(s[1..]);
    }
  }

  /** Padding around a text that itself neither starts nor ends with a space is exactly what trimming removes. */
  lemma {:induction false} TrimPadded(lead: string, s: string, trail: string)
    requires s != "" && !IsSpace(s[0]) && !IsSpace(s[|s| - 1])
    requires (forall c :: c in lead ==> IsSpace(c)) && (forall c :: c in trail ==> IsSpace(c))
    ensures TrimSpace(lead + s + trail) == s
    decreases |lead| + |trail|
  {
    if lead != "" {
      assert lead + s + trail == [lead[0]] + (lead[1..] + s + trail);
      TrimLead(lead[0], lead[1..] + s + trail);
      TrimPadded(lead[1..], s, trail);
    } else if trail != "" {
      var n := |trail| - 1;
      assert lead + s + trail == (lead + s + trail[..n]) + [trail[n]];
      TrimTrail(lead + s + trail[..n], trail[n]);
      TrimPadded(lead, s, trail[..n]);
    } else {
      assert lead + s + trail == s;
    }
  }
}
