/**
 * The string utilities the profile and settings code relies on. Their own
 * implementation is not part of this model, so they are given here as the
 * usual C-locale definitions: ASCII case folding, std::isspace trimming, and
 * the file extension as the text after the last '.' of the last path segment.
 */
module Text {

  function ToLowerChar(c: char): char {
    if 'A' <= c <= 'Z' then (c as int + 32) as char else c
  }

  function ToLower(s: string): (r: string)
    ensures |r| == |s|
  {
    seq(|s|, i requires 0 <= i < |s| => ToLowerChar(s[i]))
  }

  /** Equality ignoring ASCII case; an equivalence relation by construction. */
  predicate EqualsIgnoreCase(a: string, b: string) {
    ToLower(a) == ToLower(b)
  }

  /** The C-locale std::isspace set: space, \t, \n, \v, \f, \r. */
  predicate IsSpace(c: char) {
    c == ' ' || '\t' <= c <= '\r'
  }

  function TrimStart(s: string): string {
    if |s| > 0 && IsSpace(s[0]) then TrimStart(s[1..]) else s
  }

  function TrimEnd(s: string): string {
    if |s| > 0 && IsSpace(s[|s| - 1]) then TrimEnd(s[..|s| - 1]) else s
  }

  /** Whitespace removed from both ends. */
  function Trim(s: string): string {
    TrimEnd(TrimStart(s))
  }

  /** TrimStart drops a prefix, and what it keeps does not start with whitespace. */
  lemma {:induction false} TrimStartShape(s: string)
    ensures |TrimStart(s)| <= |s| && TrimStart(s) == s[|s| - |TrimStart(s)|..]
    ensures TrimStart(s) == [] || !IsSpace(TrimStart(s)[0])
  {
    if |s| > 0 && IsSpace(s[0]) {
      TrimStartShape(s[1..]);
    }
  }

  /** TrimEnd drops a suffix, and what it keeps does not end with whitespace. */
  lemma {:induction false} TrimEndShape(s: string)
    ensures |TrimEnd(s)| <= |s| && TrimEnd(s) == s[..|TrimEnd(s)|]
    ensures TrimEnd(s) == [] || !IsSpace(TrimEnd(s)[|TrimEnd(s)| - 1])
  {
    if |s| > 0 && IsSpace(s[|s| - 1]) {
      TrimEndShape(s[..|s| - 1]);
    }
  }

  /** A string with no whitespace at either end is its own trim. */
  lemma TrimOfTrimmed(s: string)
    requires s == [] || (!IsSpace(s[0]) && !IsSpace(s[|s| - 1]))
    ensures Trim(s) == s
  {
  }

  /** Trimming is idempotent. */
  lemma TrimIdempotent(s: string)
    ensures Trim(Trim(s)) == Trim(s)
  {
    var u := TrimStart(s);
    TrimStartShape(s);
    TrimEndShape(u);
    var t := TrimEnd(u);
    assert t == [] || t[0] == u[0];
    TrimOfTrimmed(t);
  }

  /** The extension scan, from position i leftwards. */
  function ExtensionScan(path: string, i: nat): (r: string)
    requires i <= |path|
    ensures |r| <= |path| && r == path[|path| - |r|..]
    decreases i
  {
    if i == 0 then ""
    else if path[i - 1] == '.' then path[i..]
    else if path[i - 1] == '/' || path[i - 1] == '\\' then ""
    else ExtensionScan(path, i - 1)
  }

  /** The text after the last '.' of the last path segment, or "" if there is none. */
  function FileExtension(path: string): (r: string)
    ensures |r| <= |path| && r == path[|path| - |r|..]
  {
    ExtensionScan(path, |path|)
  }

  /** std::string's ordering: character by character, a proper prefix first. */
  predicate StrLessEq(a: string, b: string) {
    a == [] || (b != [] && (a[0] < b[0] || (a[0] == b[0] && StrLessEq(a[1..], b[1..]))))
  }

  lemma {:induction false} StrLessEqTotal(a: string, b: string)
    ensures StrLessEq(a, b) || StrLessEq(b, a)
  {
    if a != [] && b != [] && a[0] == b[0] {
      StrLessEqTotal(a[1..], b[1..]);
    }
  }

  lemma {:induction false} StrLessEqAntisymmetric(a: string, b: string)
    requires StrLessEq(a, b) && StrLessEq(b, a)
    ensures a == b
  {
    if a != [] && b != [] {
      StrLessEqAntisymmetric(a[1..], b[1..]);
      assert a == [a[0]] + a[1..] && b == [b[0]] + b[1..];
    }
  }

  lemma {:induction false} StrLessEqTransitive(a: string, b: string, c: string)
    requires StrLessEq(a, b) && StrLessEq(b, c)
    ensures StrLessEq(a, c)
  {
    if a != [] && b != [] && c != [] && a[0] == b[0] && b[0] == c[0] {
      StrLessEqTransitive(a[1..], b[1..], c[1..]);
    }
  }

  predicate IsLeast(m: string, keys: set<string>) {
    m in keys && forall k :: k in keys ==> StrLessEq(m, k)
  }

  /** Every finite non-empty set of strings has a least element. */
  lemma {:induction false} LeastExists(keys: set<string>)
    requires keys != {}
    ensures exists m :: IsLeast(m, keys)
    decreases |keys|
  {
    var x :| x in keys;
    var rest := keys - {x};
    if rest == {} {
      assert keys == {x};
      StrLessEqTotal(x, x);
      assert IsLeast(x, keys);
    } else {
      LeastExists(rest);
      var m :| IsLeast(m, rest);
      StrLessEqTotal(x, m);
      if StrLessEq(x, m) {
        forall k | k in keys
          ensures StrLessEq(x, k)
        {
          if k != x {
            StrLessEqTransitive(x, m, k);
          } else {
            StrLessEqTotal(x, x);
          }
        }
        assert IsLeast(x, keys);
      } else {
        assert IsLeast(m, keys);
      }
    }
  }

  lemma LeastUnique(m1: string, m2: string, keys: set<string>)
    requires IsLeast(m1, keys) && IsLeast(m2, keys)
    ensures m1 == m2
  {
    StrLessEqAntisymmetric(m1, m2);
  }

  /** The keys of a set in ascending order, as a std::map iterates them. */
  ghost function SortedKeys(keys: set<string>): (r: seq<string>)
    ensures forall i :: 0 <= i < |r| ==> r[i] in keys
    decreases |keys|
  {
    if keys == {} then []
    else
      LeastExists(keys);
      var m :| IsLeast(m, keys);
      [m] + SortedKeys(keys - {m})
  }

  /** SortedKeys lists every key exactly once, in ascending order. */
  lemma {:induction false} SortedKeysSpec(keys: set<string>)
    ensures |SortedKeys(keys)| == |keys|
    ensures forall k :: k in keys <==> k in SortedKeys(keys)
    ensures forall i, j :: 0 <= i < j < |SortedKeys(keys)| ==>
              SortedKeys(keys)[i] != SortedKeys(keys)[j] && StrLessEq(SortedKeys(keys)[i], SortedKeys(keys)[j])
    decreases |keys|
  {
    if keys != {} {
      LeastExists(keys);
      var m :| IsLeast(m, keys) && SortedKeys(keys) == [m] + SortedKeys(keys - {m});
      SortedKeysSpec(keys - {m});
    }
  }

  lemma SortedKeysCover(keys: set<string>)
    ensures forall k :: k in keys <==> k in SortedKeys(keys)
  {
    SortedKeysSpec(keys);
  }

  /** Unfolding SortedKeys at a least element. */
  lemma SortedKeysLeast(m: string, keys: set<string>)
    requires IsLeast(m, keys)
    ensures SortedKeys(keys) == [m] + SortedKeys(keys - {m})
  {
    LeastExists(keys);
    var m' :| IsLeast(m', keys) && SortedKeys(keys) == [m'] + SortedKeys(keys - {m'});
    LeastUnique(m, m', keys);
  }
}
