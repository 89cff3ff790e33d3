/**
 The string operations the services lean on: trimming, splitting and joining at commas, and the
 order in which strings are sorted. A string is a sequence of Unicode code points, so comparing
 code points gives the order that comparing the UTF-8 bytes gives.
 */
module Text {

  const COMMA: char := ','

  // The code points that the Unicode White_Space property contains.
  predicate IsSpace(c: char) {
    var k := c as int;
    || 9 <= k <= 13 || k == 0x20 || k == 0x85 || k == 0xA0 || k == 0x1680
    || 0x2000 <= k <= 0x200A || k == 0x2028 || k == 0x2029 || k == 0x202F || k == 0x205F || k == 0x3000
  }

  // The length of the UTF-8 encoding.
  function ByteLen(s: string): nat {
    if s == "" then 0 else ByteLen(s[1..]) + CharBytes(s[0])
  }

  function CharBytes(c: char): nat {
    var k := c as int;
    if k < 0x80 then 1 else if k < 0x800 then 2 else if k < 0x10000 then 3 else 4
  }

  function TrimLeft(s: string): string {
    if s != "" && IsSpace(s[0]) then TrimLeft(s[1..]) else s
  }

  function TrimRight(s: string): string {
    if s != "" && IsSpace(s[|s| - 1]) then TrimRight(s[..|s| - 1]) else s
  }

  function TrimSpace(s: string): string {
    TrimRight(TrimLeft(s))
  }

  function Split(s: string): (parts: seq<string>)
    ensures |parts| > 0
    ensures forall p | p in parts :: COMMA !in p
  {
    if s == "" then
      [""]
    else if s[0] == COMMA then
      [""] + Split(s[1..])
    else
      var rest := Split(s[1..]);
      assert rest[0] in rest;
      [[s[0]] + rest[0]] + rest[1..]
  }

  function Join(parts: seq<string>): string {
    if |parts| == 0 then "" else if |parts| == 1 then parts[0] else parts[0] + [COMMA] + Join(parts[1..])
  }

  // The parts of a comma-separated list, each without its surrounding blanks.
  function Parts(s: string): (parts: seq<string>)
    ensures |parts| > 0
  {
    var raw := Split(s);
    seq(|raw|, i requires 0 <= i < |raw| => TrimSpace(raw[i]))
  }

  // ---- trimming ----

  lemma TrimLeftSuffix(s: string)
    ensures |TrimLeft(s)| <= |s| && TrimLeft(s) == s[|s| - |TrimLeft(s)|..]
    ensures TrimLeft(s) != "" ==> !IsSpace(TrimLeft(s)[0])
  {
  }

  lemma TrimRightPrefix(s: string)
    ensures |TrimRight(s)| <= |s| && TrimRight(s) == s[..|TrimRight(s)|]
    ensures TrimRight(s) != "" ==> !IsSpace(TrimRight(s)[|TrimRight(s)| - 1])
  {
  }

  // A string is trimmed when it neither begins nor ends with a blank.
  predicate Trimmed(s: string) {
    s != "" ==> !IsSpace(s[0]) && !IsSpace(s[|s| - 1])
  }

  lemma TrimSpaceTrims(s: string)
    ensures Trimmed(TrimSpace(s))
  {
    TrimLeftSuffix(s);
    TrimRightPrefix(TrimLeft(s));
  }

  /** Trimming takes the blanks at both ends, and nothing else. */
  lemma TrimSpaceTakesBlanks(s: string) returns (left: string, right: string)
    ensures s == left + TrimSpace(s) + right && Trimmed(TrimSpace(s))
    ensures forall c | c in left + right :: IsSpace(c)
  {
    TrimSpaceTrims(s);
    left := TrimLeftTakesBlanks(s);
    right := TrimRightTakesBlanks(TrimLeft(s));
  }

  lemma {:induction false} TrimLeftTakesBlanks(s: string) returns (left: string)
    ensures s == left + TrimLeft(s) && forall c | c in left :: IsSpace(c)
  {
    left := "";
    if s != "" && IsSpace(s[0]) {
      left := TrimLeftTakesBlanks(s[1..]);
      left := [s[0]] + left;
      assert s == left + TrimLeft(s);
    }
  }

  lemma {:induction false} TrimRightTakesBlanks(s: string) returns (right: string)
    ensures s == TrimRight(s) + right && forall c | c in right :: IsSpace(c)
    decreases |s|
  {
    right := "";
    if s != "" && IsSpace(s[|s| - 1]) {
      right := TrimRightTakesBlanks(s[..|s| - 1]);
      right := right + [s[|s| - 1]];
      assert s == TrimRight(s) + right;
    }
  }

  /** The blanks are the 25 code points with the property White_Space. */
  lemma BlanksAreWhiteSpace(c: char)
    ensures IsSpace(c) <==>
              c in {'\t', '\n', '\U{B}', '\U{C}', '\r', ' ', '\U{85}', '\U{A0}', '\U{1680}', '\U{2000}', '\U{2001}',
                    '\U{2002}', '\U{2003}', '\U{2004}', '\U{2005}', '\U{2006}', '\U{2007}', '\U{2008}', '\U{2009}',
                    '\U{200A}', '\U{2028}', '\U{2029}', '\U{202F}', '\U{205F}', '\U{3000}'}
  {
  }

  /** Lengths in bytes add up, and a code point takes one to four bytes. */
  lemma {:induction false} ByteLenAdds(s: string, t: string)
    ensures ByteLen(s + t) == ByteLen(s) + ByteLen(t)
  {
    if s == "" {
      assert s + t == t;
    } else {
      ByteLenAdds(s[1..], t);
      assert (s + t)[1..] == s[1..] + t;
    }
  }

  lemma ByteLenOfOne(c: char)
    ensures ByteLen([c]) == if c < '\U{80}' then 1 else if c < '\U{800}' then 2 else if c < '\U{10000}' then 3 else 4
  {
    assert [c][1..] == "";
  }

  lemma TrimIsIdempotent(s: string)
    ensures TrimSpace(TrimSpace(s)) == TrimSpace(s)
  {
    TrimSpaceTrims(s);
  }

  lemma TrimKeepsCommaFree(s: string)
    requires COMMA !in s
    ensures COMMA !in TrimSpace(s)
  {
    TrimLeftSuffix(s);
    TrimRightPrefix(TrimLeft(s));
  }

  lemma {:induction false} TrimLeftIgnoresTrailingBlank(s: string, c: char)
    requires IsSpace(c)
    ensures TrimSpace(s + [c]) == TrimSpace(s)
    decreases |s|
  {
    if s == "" {
      assert "" + [c] == [c];
      assert TrimLeft([c]) == TrimLeft([c][1..]);
    } else if IsSpace(s[0]) {
      assert (s + [c])[1..] == s[1..] + [c];
      TrimLeftIgnoresTrailingBlank(s[1..], c);
    } else {
      assert (s + [c])[..|s + [c]| - 1] == s;
    }
  }

  // ---- splitting and joining ----

  lemma {:induction false} JoinSplit(s: string)
    ensures Join(Split(s)) == s
  {
    if s != "" {
      JoinSplit(s[1..]);
      var rest := Split(s[1..]);
      if s[0] == COMMA {
        assert Split(s)[1..] == rest;
        assert s == "" + [COMMA] + Join(rest);
      } else if |rest| > 1 {
        assert Split(s)[1..] == rest[1..];
        assert s == [s[0]] + (rest[0] + [COMMA] + Join(rest[1..]));
      }
    }
  }

  lemma {:induction false} SplitOfPart(p: string)
    requires COMMA !in p
    ensures Split(p) == [p]
  {
    if p != "" {
      SplitOfPart(p[1..]);
      assert [p[0]] + p[1..] == p;
    }
  }

  lemma {:induction false} SplitOfPartThenRest(p: string, rest: string)
    requires COMMA !in p
    ensures Split(p + [COMMA] + rest) == [p] + Split(rest)
  {
    if p == "" {
      assert (p + [COMMA] + rest)[1..] == rest;
    } else {
      SplitOfPartThenRest(p[1..], rest);
      assert (p + [COMMA] + rest)[1..] == p[1..] + [COMMA] + rest;
      assert [p[0]] + p[1..] == p;
      assert ([p[1..]] + Split(rest))[1..] == Split(rest);
    }
  }

  lemma {:induction false} SplitJoin(parts: seq<string>)
    requires |parts| > 0
    requires forall p | p in parts :: COMMA !in p
    ensures Split(Join(parts)) == parts
  {
    if |parts| == 1 {
      SplitOfPart(parts[0]);
    } else {
      SplitJoin(parts[1..]);
      SplitOfPartThenRest(parts[0], Join(parts[1..]));
      assert parts == [parts[0]] + parts[1..];
    }
  }

  // Two joined lists of comma-free parts agree only when the lists do.
  lemma JoinInjective(xs: seq<string>, ys: seq<string>)
    requires |xs| > 0 && |ys| > 0
    requires forall p | p in xs :: COMMA !in p
    requires forall p | p in ys :: COMMA !in p
    ensures Join(xs) == Join(ys) <==> xs == ys
  {
    SplitJoin(xs);
    SplitJoin(ys);
  }

  // Blanks around the whole list change none of its trimmed parts.
  lemma PartsIgnoreOuterBlanks(s: string)
    ensures Parts(TrimSpace(s)) == Parts(s)
  {
    PartsOfTrimLeft(s);
    PartsOfTrimRight(TrimLeft(s));
  }

  lemma {:induction false} PartsOfTrimLeft(s: string)
    ensures Parts(TrimLeft(s)) == Parts(s)
  {
    if s != "" && IsSpace(s[0]) {
      PartsOfTrimLeft(s[1..]);
      var rest := Split(s[1..]);
      assert s[0] != COMMA;
      assert TrimSpace([s[0]] + rest[0]) == TrimSpace(rest[0]) by {
        assert ([s[0]] + rest[0])[1..] == rest[0];
      }
      assert Parts(s) == Parts(s[1..]);
    }
  }

  lemma {:induction false} PartsOfTrimRight(s: string)
    ensures Parts(TrimRight(s)) == Parts(s)
    decreases |s|
  {
    if s != "" && IsSpace(s[|s| - 1]) {
      var init, c := s[..|s| - 1], s[|s| - 1];
      PartsOfTrimRight(init);
      assert s == init + [c];
      PartsIgnoreTrailingBlank(init, c);
    }
  }

  lemma PartsIgnoreTrailingBlank(s: string, c: char)
    requires IsSpace(c)
    ensures Parts(s + [c]) == Parts(s)
  {
    var raw, more := Split(s), Split(s + [c]);
    SplitOfExtended(s, c);
    TrimLeftIgnoresTrailingBlank(raw[|raw| - 1], c);
    forall i | 0 <= i < |raw| ensures TrimSpace(more[i]) == TrimSpace(raw[i]) {
      if i < |raw| - 1 {
        assert more[i] == raw[i];
      }
    }
  }

  // The parts with one more character at the end of the last.
  function Extended(raw: seq<string>, c: char): seq<string>
    requires raw != []
  {
    raw[..|raw| - 1] + [raw[|raw| - 1] + [c]]
  }

  lemma ExtendedRest(first: string, rest: seq<string>, c: char)
    requires rest != []
    ensures Extended([first] + rest, c) == [first] + Extended(rest, c)
  {
  }

  lemma {:induction false} SplitOfExtended(s: string, c: char)
    requires c != COMMA
    ensures Split(s + [c]) == Extended(Split(s), c)
  {
    if s == "" {
      assert s + [c] == [c] && [c][1..] == "";
      assert Split([c]) == [[c] + Split("")[0]] + Split("")[1..];
      assert [c] + "" == "" + [c];
    } else {
      SplitOfExtended(s[1..], c);
      assert (s + [c])[1..] == s[1..] + [c];
      var rest := Split(s[1..]);
      if s[0] == COMMA {
        ExtendedRest("", rest, c);
      } else {
        ExtendedHead(s[0], rest, c);
      }
    }
  }

  // Putting a character before the first part commutes with putting one after the last.
  lemma ExtendedHead(h: char, rest: seq<string>, c: char)
    requires rest != []
    ensures var more := Extended(rest, c);
            [[h] + more[0]] + more[1..] == Extended([[h] + rest[0]] + rest[1..], c)
  {
    if |rest| == 1 {
      assert [h] + (rest[0] + [c]) == ([h] + rest[0]) + [c];
    } else {
      assert rest == [rest[0]] + rest[1..];
      ExtendedRest(rest[0], rest[1..], c);
      ExtendedRest([h] + rest[0], rest[1..], c);
    }
  }

  // ---- sorting ----

  predicate LexLeq(a: string, b: string) {
    a == "" || (b != "" && (a[0] < b[0] || (a[0] == b[0] && LexLeq(a[1..], b[1..]))))
  }

  // Before the other string: a part of it from its beginning, or smaller at the first difference.
  ghost predicate ComesFirst(a: string, b: string) {
    a <= b || exists i :: 0 <= i < |a| && i < |b| && a[..i] == b[..i] && a[i] < b[i]
  }

  /** The order of sorting is that of the first difference. */
  lemma {:induction false} LexLeqIsByFirstDifference(a: string, b: string)
    ensures LexLeq(a, b) <==> ComesFirst(a, b)
  {
    if a != "" && b != "" {
      LexLeqIsByFirstDifference(a[1..], b[1..]);
      assert a == [a[0]] + a[1..] && b == [b[0]] + b[1..];
      if a[0] == b[0] {
        DifferenceLater(a, b);
      } else if a[0] < b[0] {
        assert a[..0] == b[..0] && a[0] < b[0];
      }
    }
  }

  lemma DifferenceLater(a: string, b: string)
    requires a != "" && b != "" && a[0] == b[0]
    ensures ComesFirst(a, b) <==> ComesFirst(a[1..], b[1..])
  {
    if i :| 0 <= i < |a| && i < |b| && a[..i] == b[..i] && a[i] < b[i] {
      assert a[1..][..i - 1] == a[1..i] && b[1..][..i - 1] == b[1..i];
      assert a[1..i] == a[..i][1..] == b[..i][1..] == b[1..i];
      assert a[1..][i - 1] < b[1..][i - 1];
    }
    if i :| 0 <= i < |a[1..]| && i < |b[1..]| && a[1..][..i] == b[1..][..i] && a[1..][i] < b[1..][i] {
      assert a[..i + 1] == [a[0]] + a[1..][..i] && b[..i + 1] == [b[0]] + b[1..][..i];
      assert a[i + 1] < b[i + 1];
    }
    assert a == [a[0]] + a[1..] && b == [b[0]] + b[1..];
    if a <= b {
      assert a[1..] == b[..|a|][1..];
    }
  }

  lemma LexTotal(a: string, b: string)
    ensures LexLeq(a, b) || LexLeq(b, a)
  {
  }

  lemma LexAntisymmetric(a: string, b: string)
    requires LexLeq(a, b) && LexLeq(b, a)
    ensures a == b
  {
    if a != "" {
      LexAntisymmetric(a[1..], b[1..]);
      assert a == [a[0]] + a[1..] && b == [b[0]] + b[1..];
    }
  }

  lemma LexTransitive(a: string, b: string, c: string)
    requires LexLeq(a, b) && LexLeq(b, c)
    ensures LexLeq(a, c)
  {
  }

  ghost predicate Sorted(s: seq<string>) {
    forall i, j | 0 <= i < j < |s| :: LexLeq(s[i], s[j])
  }

  function Insert(x: string, s: seq<string>): (r: seq<string>)
    requires Sorted(s)
    ensures Sorted(r) && multiset(r) == multiset(s) + multiset{x}
  {
    if s == [] || LexLeq(x, s[0]) then
      InsertFront(x, s);
      [x] + s
    else
      var r := Insert(x, s[1..]);
      InsertLater(x, s, r);
      [s[0]] + r
  }

  lemma InsertFront(x: string, s: seq<string>)
    requires Sorted(s) && (s == [] || LexLeq(x, s[0]))
    ensures Sorted([x] + s)
  {
    forall j | 0 < j < |s| ensures LexLeq(x, s[j]) {
      LexTransitive(x, s[0], s[j]);
    }
  }

  lemma InsertLater(x: string, s: seq<string>, r: seq<string>)
    requires s != [] && Sorted(s) && !LexLeq(x, s[0])
    requires Sorted(r) && multiset(r) == multiset(s[1..]) + multiset{x}
    ensures Sorted([s[0]] + r)
    ensures multiset([s[0]] + r) == multiset(s) + multiset{x}
  {
    LexTotal(x, s[0]);
    forall j | 0 <= j < |r| ensures LexLeq(s[0], r[j]) {
      assert r[j] in multiset(r);
      assert r[j] == x || r[j] in s[1..];
    }
    assert s == [s[0]] + s[1..];
  }

  function SortStrings(s: seq<string>): (r: seq<string>)
    ensures Sorted(r) && multiset(r) == multiset(s)
  {
    if s == [] then [] else
      assert s == [s[0]] + s[1..];
      Insert(s[0], SortStrings(s[1..]))
  }

  lemma HeadsAgree(a: seq<string>, b: seq<string>)
    requires Sorted(a) && Sorted(b) && multiset(a) == multiset(b) && a != [] && b != []
    ensures a[0] == b[0]
  {
    assert a[0] in multiset(b) && b[0] in multiset(a);
    var i :| 0 <= i < |b| && b[i] == a[0];
    var j :| 0 <= j < |a| && a[j] == b[0];
    LexTotal(a[0], a[0]);
    LexTotal(b[0], b[0]);
    LexAntisymmetric(a[0], b[0]);
  }

  lemma CountFromFirst<T>(s: seq<T>, x: T)
    requires s != []
    ensures multiset(s)[x] == multiset(s[1..])[x] + if s[0] == x then 1 else 0
  {
    assert s == [s[0]] + s[1..];
  }

  lemma TailsAgree<T>(a: seq<T>, b: seq<T>)
    requires multiset(a) == multiset(b) && a != [] && b != [] && a[0] == b[0]
    ensures multiset(a[1..]) == multiset(b[1..])
  {
    assert a == [a[0]] + a[1..] && b == [b[0]] + b[1..];
    assert multiset(a[1..]) == multiset(a) - multiset{a[0]};
    assert multiset(b[1..]) == multiset(b) - multiset{b[0]};
  }

  // Sorting is canonical: a multiset has one sorted arrangement.
  lemma {:induction false} SortedUnique(a: seq<string>, b: seq<string>)
    requires Sorted(a) && Sorted(b) && multiset(a) == multiset(b)
    ensures a == b
  {
    assert |b| == |multiset(b)| == |multiset(a)| == |a|;
    if a != [] {
      HeadsAgree(a, b);
      TailsAgree(a, b);
      SortedUnique(a[1..], b[1..]);
      assert a == [a[0]] + a[1..] && b == [b[0]] + b[1..];
    }
  }

  method SortInPlace(a: array<string>)
    modifies a
    ensures Sorted(a[..]) && multiset(a[..]) == multiset(old(a[..]))
    ensures a[..] == SortStrings(old(a[..]))
  {
    var sorted := SortStrings(a[..]);
    assert |sorted| == |multiset(sorted)| == |multiset(a[..])| == a.Length;
    forall i | 0 <= i < a.Length {
      a[i] := sorted[i];
    }
    assert a[..] == sorted;
  }
}
