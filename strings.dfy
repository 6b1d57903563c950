/** String helpers the engine relies on: deduplication in first-occurrence order
    (spreading a `Set` into an array), the default array sort (ascending by character
    code), `join`, `includes` and decimal rendering of counts. */
module Strings {

  ghost predicate NoDup(s: seq<string>) {
    forall i, j :: 0 <= i < j < |s| ==> s[i] != s[j]
  }

  /** The distinct elements of `s`, in order of first occurrence. */
  function Dedup(s: seq<string>): seq<string> {
    if s == [] then []
    else
      var d := Dedup(s[..|s| - 1]);
      if s[|s| - 1] in d then d else d + [s[|s| - 1]]
  }

  lemma {:induction false} DedupProperties(s: seq<string>)
    ensures NoDup(Dedup(s))
    ensures forall x :: x in Dedup(s) <==> x in s
  {
    if s != [] {
      var init := s[..|s| - 1];
      DedupProperties(init);
      assert s == init + [s[|s| - 1]];
    }
  }

  /** Lexicographic order on character codes, as the default comparator compares strings. */
  predicate Below(a: string, b: string) {
    if |a| == 0 then |b| > 0
    else if |b| == 0 then false
    else if a[0] != b[0] then a[0] < b[0]
    else Below(a[1..], b[1..])
  }

  lemma {:induction false} BelowIrreflexive(a: string)
    ensures !Below(a, a)
  {
    if |a| > 0 { BelowIrreflexive(a[1..]); }
  }

  lemma {:induction false} BelowTransitive(a: string, b: string, c: string)
    requires Below(a, b) && Below(b, c)
    ensures Below(a, c)
  {
    if |a| > 0 && |b| > 0 && |c| > 0 && a[0] == b[0] && b[0] == c[0] {
      BelowTransitive(a[1..], b[1..], c[1..]);
    }
  }

  lemma {:induction false} BelowTotal(a: string, b: string)
    requires a != b
    ensures Below(a, b) || Below(b, a)
  {
    if |a| > 0 && |b| > 0 && a[0] == b[0] {
      assert a == [a[0]] + a[1..] && b == [b[0]] + b[1..];
      BelowTotal(a[1..], b[1..]);
    }
  }

  predicate Le(a: string, b: string) {
    a == b || Below(a, b)
  }

  ghost predicate SortedStrings(s: seq<string>) {
    forall i, j :: 0 <= i < j < |s| ==> Le(s[i], s[j])
  }

  function InsertString(x: string, s: seq<string>): seq<string> {
    if s == [] then [x]
    else if Below(s[0], x) then [s[0]] + InsertString(x, s[1..])
    else [x] + s
  }

  /** Insertion sort, ascending by `Below`. */
  function SortStrings(s: seq<string>): seq<string> {
    if s == [] then [] else InsertString(s[0], SortStrings(s[1..]))
  }

  lemma {:induction false} InsertStringMultiset(x: string, s: seq<string>)
    ensures multiset(InsertString(x, s)) == multiset(s) + multiset{x}
  {
    if s != [] {
      InsertStringMultiset(x, s[1..]);
      assert s == [s[0]] + s[1..];
    }
  }

  /** A sorted sequence headed by a lower bound of its tail stays sorted. */
  lemma ConsSorted(a: string, r: seq<string>)
    requires SortedStrings(r)
    requires forall k :: 0 <= k < |r| ==> Le(a, r[k])
    ensures SortedStrings([a] + r)
  {
    var t := [a] + r;
    forall i, j | 0 <= i < j < |t| ensures Le(t[i], t[j]) {
      if i > 0 { assert t[i] == r[i - 1] && t[j] == r[j - 1]; }
      else { assert t[j] == r[j - 1]; }
    }
  }

  lemma {:induction false} InsertStringProperties(x: string, s: seq<string>)
    requires SortedStrings(s)
    ensures SortedStrings(InsertString(x, s))
    ensures multiset(InsertString(x, s)) == multiset(s) + multiset{x}
  {
    InsertStringMultiset(x, s);
    if s != [] {
      var tail := s[1..];
      assert SortedStrings(tail) by {
        forall i, j | 0 <= i < j < |tail| ensures Le(tail[i], tail[j]) {
          assert tail[i] == s[i + 1] && tail[j] == s[j + 1];
        }
      }
      if Below(s[0], x) {
        InsertStringProperties(x, tail);
        var r := InsertString(x, tail);
        forall k | 0 <= k < |r| ensures Le(s[0], r[k]) {
          assert r[k] in multiset(tail) + multiset{x};
          if r[k] != x {
            var m :| 0 <= m < |tail| && tail[m] == r[k];
            assert s[m + 1] == r[k];
          }
        }
        ConsSorted(s[0], r);
      } else {
        if x != s[0] { BelowTotal(x, s[0]); }
        forall k | 0 <= k < |s| ensures Le(x, s[k]) {
          if k > 0 && x != s[k] && s[0] != s[k] {
            assert Le(s[0], s[k]);
            if x != s[0] { BelowTransitive(x, s[0], s[k]); }
          }
        }
        ConsSorted(x, s);
      }
    }
  }

  lemma {:induction false} SortStringsProperties(s: seq<string>)
    ensures SortedStrings(SortStrings(s))
    ensures multiset(SortStrings(s)) == multiset(s)
  {
    if s != [] {
      SortStringsProperties(s[1..]);
      InsertStringProperties(s[0], SortStrings(s[1..]));
      assert s == [s[0]] + s[1..];
    }
  }

  /** Two ascending duplicate-free sequences with the same elements are equal. */
  lemma {:induction false} SortedUnique(a: seq<string>, b: seq<string>)
    requires SortedStrings(a) && NoDup(a)
    requires SortedStrings(b) && NoDup(b)
    requires forall x :: x in a <==> x in b
    ensures a == b
  {
    if a != [] && b != [] {
      // a[0] and b[0] are both the least element.
      assert b[0] in a;
      assert a[0] in b;
      if a[0] != b[0] {
        var i :| 0 <= i < |a| && a[i] == b[0];
        var j :| 0 <= j < |b| && b[j] == a[0];
        assert Below(a[0], b[0]);
        assert Below(b[0], a[0]);
        BelowTransitive(a[0], b[0], a[0]);
        BelowIrreflexive(a[0]);
      }
      forall x ensures x in a[1..] <==> x in b[1..] {
        if x in a[1..] {
          var i :| 0 <= i < |a[1..]| && a[1..][i] == x;
          assert a[i + 1] == x && x != a[0];
          assert x in b;
        }
        if x in b[1..] {
          var i :| 0 <= i < |b[1..]| && b[1..][i] == x;
          assert b[i + 1] == x && x != b[0];
          assert x in a;
        }
      }
      SortedUnique(a[1..], b[1..]);
      assert a == [a[0]] + a[1..] && b == [b[0]] + b[1..];
    } else if a != [] {
      HeadIn(a);
    } else if b != [] {
      HeadIn(b);
    }
  }

  lemma HeadIn(s: seq<string>)
    requires s != []
    ensures s[0] in s
  {
  }

  lemma {:induction false} NoDupCount(b: seq<string>, y: string)
    requires NoDup(b)
    ensures multiset(b)[y] <= 1
  {
    if b != [] {
      var rest := b[1..];
      assert b == [b[0]] + rest;
      assert NoDup(rest) by {
        forall i, j | 0 <= i < j < |rest| ensures rest[i] != rest[j] {
          assert rest[i] == b[i + 1] && rest[j] == b[j + 1];
        }
      }
      NoDupCount(rest, y);
      if b[0] == y {
        assert y !in rest by {
          forall i | 0 <= i < |rest| ensures rest[i] != y { assert rest[i] == b[i + 1]; }
        }
      }
    }
  }

  lemma MultisetNoDup(a: seq<string>, b: seq<string>)
    requires multiset(a) == multiset(b)
    requires NoDup(b)
    ensures NoDup(a)
  {
    forall i, j | 0 <= i < j < |a| ensures a[i] != a[j] {
      assert a == a[..j] + [a[j]] + a[j + 1..];
      assert a[..j][i] == a[i];
      assert multiset(a)[a[j]] == multiset(a[..j])[a[j]] + 1 + multiset(a[j + 1..])[a[j]];
      assert multiset(a[..j])[a[i]] >= 1;
      NoDupCount(b, a[j]);
    }
  }

  lemma SameElements(a: seq<string>, b: seq<string>, c: seq<string>, d: seq<string>)
    requires multiset(a) == multiset(c) && multiset(b) == multiset(d)
    requires forall x :: x in c <==> x in d
    ensures forall x :: x in a <==> x in b
  {
    forall x ensures x in a <==> x in b {
      calc {
        x in a;
        x in multiset(a);
        x in multiset(c);
        x in c;
      }
      calc {
        x in b;
        x in multiset(b);
        x in multiset(d);
        x in d;
      }
    }
  }

  /** Sorting a duplicate-free sequence depends only on which elements it holds. */
  lemma SortStringsSetOnly(a: seq<string>, b: seq<string>)
    requires NoDup(a) && NoDup(b)
    requires forall x :: x in a <==> x in b
    ensures SortStrings(a) == SortStrings(b)
  {
    var sa, sb := SortStrings(a), SortStrings(b);
    SortStringsProperties(a);
    SortStringsProperties(b);
    MultisetNoDup(sa, a);
    MultisetNoDup(sb, b);
    SameElements(sa, sb, a, b);
    SortedUnique(sa, sb);
  }

  /** `ss.join(sep)`. */
  function Join(ss: seq<string>, sep: string): string {
    if |ss| == 0 then "" else if |ss| == 1 then ss[0] else ss[0] + sep + Join(ss[1..], sep)
  }

  /** `s.includes(sub)`. */
  predicate Contains(s: string, sub: string) {
    if |s| < |sub| then false else s[..|sub|] == sub || Contains(s[1..], sub)
  }

  /** Decimal rendering of a count, as template interpolation prints it: decimal
      digits only, with no leading zero. */
  function NatToString(n: nat): (r: string)
    ensures |r| > 0
    ensures forall i :: 0 <= i < |r| ==> '0' <= r[i] <= '9'
    ensures r[0] == '0' <==> n == 0
  {
    if n < 10 then ["0123456789"[n]] else NatToString(n / 10) + ["0123456789"[n % 10]]
  }

  /** The value of a string of decimal digits, most significant first. */
  function DecimalValue(s: string): nat
    requires forall i :: 0 <= i < |s| ==> '0' <= s[i] <= '9'
  {
    if s == [] then 0
    else DecimalValue(s[..|s| - 1]) * 10 + (s[|s| - 1] as int - '0' as int)
  }

  /** Reading the rendering back as a decimal number gives the count. */
  lemma {:induction false} NatToStringValue(n: nat)
    ensures DecimalValue(NatToString(n)) == n
  {
    if n >= 10 {
      NatToStringValue(n / 10);
      var r := NatToString(n);
      assert r[..|r| - 1] == NatToString(n / 10);
    }
  }

  /** Different counts are rendered differently. */
  lemma NatToStringInjective(n: nat, m: nat)
    requires NatToString(n) == NatToString(m)
    ensures n == m
  {
    NatToStringValue(n);
    NatToStringValue(m);
  }
}
