/** Shared vocabulary of the GMS Flags client model: the three-way UI state,
    an optional value, the ASCII ignore-case substring test used by every
    search box, the natural order of strings, and the key-ordered view of a
    string map that toSortMap/toSortedMap produce.
 */
module Common {

  datatype Option<+T> = None | Some(value: T)

  /** The screens' UiStates: a load in progress, a failed load, or data. */
  datatype UiState<+T> = Loading | Error | Success(data: T)

  // ---------------------------------------------------------------------
  // Ignore-case substring test (ASCII case folding)
  // ---------------------------------------------------------------------

  /** Folds an ASCII capital to its small letter: the same distance from
      'a' as the capital is from 'A'. */
  function LowerChar(c: char): (d: char)
    ensures 'A' <= c <= 'Z' ==> 'a' <= d <= 'z' && d as int - 'a' as int == c as int - 'A' as int
    ensures !('A' <= c <= 'Z') ==> d == c
  {
    if 'A' <= c <= 'Z' then (c as int - 'A' as int + 'a' as int) as char else c
  }

  /** The inverse direction, used to state what "ignoring case" means. */
  function UpperChar(c: char): (d: char)
    ensures 'a' <= c <= 'z' ==> 'A' <= d <= 'Z' && LowerChar(d) == c
    ensures !('a' <= c <= 'z') ==> d == c
  {
    if 'a' <= c <= 'z' then (c as int - 'a' as int + 'A' as int) as char else c
  }

  function Lower(s: string): (r: string)
  {
    seq(|s|, i requires 0 <= i < |s| => LowerChar(s[i]))
  }

  function Upper(s: string): (r: string)
  {
    seq(|s|, i requires 0 <= i < |s| => UpperChar(s[i]))
  }

  /** Lower-casing twice is lower-casing once. */
  lemma LowerIdempotent(s: string)
    ensures Lower(Lower(s)) == Lower(s)
  {
    forall i | 0 <= i < |s| ensures Lower(Lower(s))[i] == Lower(s)[i] {
      assert Lower(s)[i] == LowerChar(s[i]);
    }
  }

  /** Upper-casing loses nothing that lower-casing keeps. */
  lemma LowerOfUpper(s: string)
    ensures Lower(Upper(s)) == Lower(s)
  {
    forall i | 0 <= i < |s| ensures Lower(Upper(s))[i] == Lower(s)[i] {
      assert Upper(s)[i] == UpperChar(s[i]);
    }
  }

  /** `q` occurs in `s` as a contiguous block starting at `i`. */
  predicate OccursAt(q: string, s: string, i: int)
  {
    0 <= i && i + |q| <= |s| && s[i..i + |q|] == q
  }

  predicate IsSubstring(q: string, s: string)
  {
    exists i :: 0 <= i <= |s| - |q| && OccursAt(q, s, i)
  }

  /** Kotlin's `s.contains(q, ignoreCase = true)`, with ASCII case folding. */
  predicate ContainsIgnoreCase(s: string, q: string)
    ensures |q| > |s| ==> !ContainsIgnoreCase(s, q)
  {
    IsSubstring(Lower(q), Lower(s))
  }

  /** The match ignores case: upper-casing the key or the query changes
      nothing, and every key matches itself in capitals. */
  lemma CaseIgnored(s: string, q: string)
    ensures ContainsIgnoreCase(Upper(s), q) == ContainsIgnoreCase(s, q)
    ensures ContainsIgnoreCase(s, Upper(q)) == ContainsIgnoreCase(s, q)
    ensures ContainsIgnoreCase(s, Upper(s))
  {
    LowerOfUpper(s);
    LowerOfUpper(q);
    assert OccursAt(Lower(s), Lower(s), 0);
  }

  lemma EmptyQueryMatches(s: string)
    ensures ContainsIgnoreCase(s, "")
  {
    assert OccursAt(Lower(""), Lower(s), 0);
  }

  lemma SubstringTransitive(a: string, b: string, c: string)
    requires IsSubstring(a, b) && IsSubstring(b, c)
    ensures IsSubstring(a, c)
  {
    var i :| 0 <= i <= |b| - |a| && OccursAt(a, b, i);
    var j :| 0 <= j <= |c| - |b| && OccursAt(b, c, j);
    forall t | 0 <= t < |a| ensures c[j + i..j + i + |a|][t] == a[t] {
      assert b[i..i + |a|][t] == a[t];
      assert c[j..j + |b|][i + t] == b[i + t];
    }
    assert OccursAt(a, c, j + i);
  }

  /** Typing more of a query never widens a search: a key that contains the
      longer query contains every query that occurs in it. */
  lemma {:induction false} NarrowerQuery(s: string, q: string, q': string)
    requires ContainsIgnoreCase(q', q) && ContainsIgnoreCase(s, q')
    ensures ContainsIgnoreCase(s, q)
  {
    SubstringTransitive(Lower(q), Lower(q'), Lower(s));
  }

  // ---------------------------------------------------------------------
  // The natural order of strings (Kotlin String.compareTo)
  // ---------------------------------------------------------------------

  /** Lexicographic order by character; a proper prefix comes first. */
  predicate LexLe(a: string, b: string)
    decreases |a|
  {
    if a == [] then true
    else if b == [] then false
    else if a[0] < b[0] then true
    else if b[0] < a[0] then false
    else LexLe(a[1..], b[1..])
  }

  predicate LexLess(a: string, b: string)
  {
    LexLe(a, b) && a != b
  }

  lemma {:induction false} LexLeReflexive(a: string)
    ensures LexLe(a, a)
    decreases |a|
  {
    if a != [] { LexLeReflexive(a[1..]); }
  }

  lemma {:induction false} LexLeTotal(a: string, b: string)
    ensures LexLe(a, b) || LexLe(b, a)
    decreases |a|
  {
    if a != [] && b != [] && a[0] == b[0] {
      LexLeTotal(a[1..], b[1..]);
    }
  }

  lemma {:induction false} LexLeAntisymmetric(a: string, b: string)
    requires LexLe(a, b) && LexLe(b, a)
    ensures a == b
    decreases |a|
  {
    if a != [] && b != [] {
      LexLeAntisymmetric(a[1..], b[1..]);
      assert a == [a[0]] + a[1..] && b == [b[0]] + b[1..];
    }
  }

  /** `a` is at most `b` exactly when `b` is not strictly before `a`. */
  lemma LexLeNotGreater(a: string, b: string)
    ensures LexLe(a, b) <==> !LexLess(b, a)
  {
    LexLeTotal(a, b);
    LexLeReflexive(a);
    if LexLe(a, b) && LexLe(b, a) {
      LexLeAntisymmetric(a, b);
    }
  }

  lemma {:induction false} LexLeTransitive(a: string, b: string, c: string)
    requires LexLe(a, b) && LexLe(b, c)
    ensures LexLe(a, c)
    decreases |a|
  {
    if a != [] && b != [] && c != [] && a[0] == b[0] && b[0] == c[0] {
      LexLeTransitive(a[1..], b[1..], c[1..]);
    }
  }

  // ---------------------------------------------------------------------
  // Key-ordered enumeration of a map (toSortMap / toSortedMap)
  // ---------------------------------------------------------------------

  predicate IsLeast(k: string, keys: set<string>)
  {
    k in keys && forall j :: j in keys ==> LexLe(k, j)
  }

  lemma {:induction false} LeastExists(keys: set<string>)
    requires keys != {}
    ensures exists k :: IsLeast(k, keys)
    decreases keys
  {
    var x :| x in keys;
    LexLeReflexive(x);
    if keys == {x} {
      assert IsLeast(x, keys);
    } else {
      LeastExists(keys - {x});
      var m :| IsLeast(m, keys - {x});
      LexLeTotal(x, m);
      if LexLe(x, m) {
        forall j | j in keys ensures LexLe(x, j) {
          if j != x { LexLeTransitive(x, m, j); }
        }
        assert IsLeast(x, keys);
      } else {
        assert IsLeast(m, keys);
      }
    }
  }

  lemma LeastUnique(keys: set<string>)
    ensures forall k, k' :: IsLeast(k, keys) && IsLeast(k', keys) ==> k == k'
  {
    forall k, k' | IsLeast(k, keys) && IsLeast(k', keys) ensures k == k' {
      LexLeAntisymmetric(k, k');
    }
  }

  /** The keys of a map in the order a key-sorted map iterates them:
      strictly ascending, each key exactly once. */
  function SortedKeys(keys: set<string>): (r: seq<string>)
    ensures |r| == |keys|
    ensures forall k :: k in r <==> k in keys
    ensures forall i, j :: 0 <= i < j < |r| ==> LexLess(r[i], r[j])
    decreases keys
  {
    if keys == {} then []
    else
      LeastExists(keys);
      LeastUnique(keys);
      var k :| IsLeast(k, keys);
      var rest := SortedKeys(keys - {k});
      assert forall i :: 0 <= i < |rest| ==> LexLess(k, rest[i]);
      [k] + rest
  }

  /** The search filter of both search boxes: the entries whose key contains
      the query, ignoring case, with their values untouched. */
  function FilterKeys(m: map<string, string>, query: string): (r: map<string, string>)
    ensures forall k :: k in r <==> k in m && ContainsIgnoreCase(k, query)
    ensures forall k :: k in r ==> r[k] == m[k]
  {
    map k | k in m && ContainsIgnoreCase(k, query) :: m[k]
  }

  lemma FilterKeysEmptyQuery(m: map<string, string>)
    ensures FilterKeys(m, "") == m
  {
    forall k | k in m ensures ContainsIgnoreCase(k, "") { EmptyQueryMatches(k); }
  }

  lemma FilterKeysIdempotent(m: map<string, string>, query: string)
    ensures FilterKeys(FilterKeys(m, query), query) == FilterKeys(m, query)
  {
  }

  /** Refining the query keeps a subset of the entries. */
  lemma FilterKeysNarrows(m: map<string, string>, q: string, q': string)
    requires ContainsIgnoreCase(q', q)
    ensures FilterKeys(m, q').Keys <= FilterKeys(m, q).Keys
  {
    forall k | k in FilterKeys(m, q') ensures k in FilterKeys(m, q) {
      NarrowerQuery(k, q, q');
    }
  }
}
