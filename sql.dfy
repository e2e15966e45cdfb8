/** The SQL text the data-access layer sends: placeholder and keyword counts over strings. */
module SqlText {

  /** How many times the character `c` occurs in `s`. */
  function Count(s: string, c: char): nat {
    if s == [] then 0 else (if s[0] == c then 1 else 0) + Count(s[1..], c)
  }

  /** How many positions of `s` the non-empty `pattern` starts at. */
  function Occurrences(s: string, pattern: string): nat
    requires pattern != []
    decreases |s|
  {
    if |s| < |pattern| then 0
    else (if s[..|pattern|] == pattern then 1 else 0) + Occurrences(s[1..], pattern)
  }

  /** The number of `%s` placeholders that psycopg2 fills from the parameter tuple. */
  function Placeholders(s: string): nat {
    Occurrences(s, "%s")
  }

  lemma {:induction false} CountConcat(a: string, b: string, c: char)
    ensures Count(a + b, c) == Count(a, c) + Count(b, c)
  {
    if a != [] {
      assert (a + b)[1..] == a[1..] + b;
      CountConcat(a[1..], b, c);
    } else {
      assert a + b == b;
    }
  }

  lemma {:induction false} CountAbsent(s: string, c: char)
    requires c !in s
    ensures Count(s, c) == 0
  {
    if s != [] {
      assert c !in s[1..];
      CountAbsent(s[1..], c);
    }
  }

  /** Every occurrence of `pattern` puts its `k`-th character at a distinct position `k` further on. */
  lemma {:induction false} OccurrencesBelowCountFrom(s: string, pattern: string, k: nat)
    requires k < |pattern| && k <= |s|
    ensures Occurrences(s, pattern) <= Count(s[k..], pattern[k])
    decreases |s|
  {
    if |s| >= |pattern| {
      OccurrencesBelowCountFrom(s[1..], pattern, k);
      assert s[1..][k..] == s[k + 1..];
      assert s[k..][1..] == s[k + 1..];
      if s[..|pattern|] == pattern {
        assert s[k] == pattern[k];
      }
    }
  }

  /** A pattern occurs no more often than any one of its characters. */
  lemma OccurrencesBelowCount(s: string, pattern: string, k: nat)
    requires k < |pattern|
    ensures Occurrences(s, pattern) <= Count(s, pattern[k])
  {
    if k <= |s| {
      OccurrencesBelowCountFrom(s, pattern, k);
      assert s == s[..k] + s[k..];
      CountConcat(s[..k], s[k..], pattern[k]);
    }
  }

  /** A pattern written into a string occurs in it at least once. */
  lemma {:induction false} OccurrencesOfInfix(a: string, pattern: string, b: string)
    requires pattern != []
    ensures Occurrences(a + pattern + b, pattern) >= 1
  {
    var s := a + pattern + b;
    if a == [] {
      assert s[..|pattern|] == pattern;
    } else {
      assert s[1..] == a[1..] + pattern + b;
      OccurrencesOfInfix(a[1..], pattern, b);
    }
  }

  /** Placeholders add up across a junction that does not end in `%`. */
  lemma {:induction false} PlaceholdersConcat(a: string, b: string)
    requires a == [] || a[|a| - 1] != '%'
    ensures Placeholders(a + b) == Placeholders(a) + Placeholders(b)
  {
    if a != [] {
      var s := a + b;
      assert s[1..] == a[1..] + b;
      if |a| == 1 {
        if |s| >= 2 {
          assert s[..2] != "%s" by { assert s[..2][0] == a[0]; }
        }
        assert Placeholders(a) == 0;
      } else {
        assert s[..2] == a[..2];
        PlaceholdersConcat(a[1..], b);
      }
    } else {
      assert a + b == b;
    }
  }

  lemma {:induction false} PlaceholdersAbsent(s: string)
    requires '%' !in s
    ensures Placeholders(s) == 0
  {
    if |s| >= 2 {
      assert s[..2] != "%s" by { assert s[..2][0] == s[0]; }
      assert '%' !in s[1..];
      PlaceholdersAbsent(s[1..]);
    }
  }

  /** A pattern whose `k`-th character occurs nowhere in `s` does not occur in `s`. */
  lemma NeverOccurs(s: string, pattern: string, k: nat)
    requires k < |pattern| && pattern[k] !in s
    ensures Occurrences(s, pattern) == 0
  {
    OccurrencesBelowCount(s, pattern, k);
    CountAbsent(s, pattern[k]);
  }

  /** A pattern written once between two strings that lack its `k`-th character occurs exactly once. */
  lemma OccursOnce(a: string, pattern: string, b: string, k: nat)
    requires k < |pattern| && Count(pattern, pattern[k]) == 1
    requires pattern[k] !in a && pattern[k] !in b
    ensures Occurrences(a + pattern + b, pattern) == 1
  {
    OccurrencesOfInfix(a, pattern, b);
    OccurrencesBelowCount(a + pattern + b, pattern, k);
    CountConcat(a + pattern, b, pattern[k]);
    CountConcat(a, pattern, pattern[k]);
    CountAbsent(a, pattern[k]);
    CountAbsent(b, pattern[k]);
  }

  /** A statement template: the pieces with a `%s` placeholder between each two. */
  function Fill(pieces: seq<string>): string
    requires pieces != []
  {
    if |pieces| == 1 then pieces[0] else pieces[0] + "%s" + Fill(pieces[1..])
  }

  /** A template whose pieces hold no `%` has one placeholder fewer than it has pieces. */
  lemma {:induction false} PlaceholdersOfFill(pieces: seq<string>)
    requires pieces != []
    requires forall i | 0 <= i < |pieces| :: '%' !in pieces[i]
    ensures Placeholders(Fill(pieces)) == |pieces| - 1
  {
    if |pieces| == 1 {
      PlaceholdersAbsent(pieces[0]);
    } else {
      var a, rest := pieces[0], Fill(pieces[1..]);
      PlaceholdersOfFill(pieces[1..]);
      assert a + "%s" + rest == a + ("%s" + rest);
      PlaceholdersAbsent(a);
      assert a == [] || a[|a| - 1] != '%' by {
        if a != [] { assert a[|a| - 1] in a; }
      }
      PlaceholdersConcat(a, "%s" + rest);
      PlaceholdersConcat("%s", rest);
    }
  }
}
