/**
  The word list behind the suggestions screen: loading replaces the list by
  the lines of a resource, lowercased, and a query returns the stored words
  that start with a given prefix.
 */
module Dictionary {

  // ---------------------------------------------------------------------
  // Lowercasing
  // ---------------------------------------------------------------------

  predicate IsUpper(c: char)
  {
    'A' <= c <= 'Z'
  }

  /** `Character.toLowerCase` on the ASCII letters; every other character is left as it is. */
  function LowerChar(c: char): (d: char)
    ensures !IsUpper(d)
    ensures !IsUpper(c) ==> d == c
    ensures IsUpper(c) ==> d as int == c as int + 32
  {
    if IsUpper(c) then (c as int - 'A' as int + 'a' as int) as char else c
  }

  /** `String.toLowerCase`: the same length, each character lowered. */
  function ToLower(s: string): (r: string)
    ensures |r| == |s|
    ensures forall i :: 0 <= i < |s| ==> r[i] == LowerChar(s[i])
  {
    if s == [] then [] else [LowerChar(s[0])] + ToLower(s[1..])
  }

  /** A word with no upper-case letter. */
  predicate IsLowerWord(w: string)
  {
    forall i :: 0 <= i < |w| ==> !IsUpper(w[i])
  }

  /** Lowercasing yields a lower-case word and changes nothing the second time. */
  lemma ToLowerIdempotent(s: string)
    ensures IsLowerWord(ToLower(s))
    ensures ToLower(ToLower(s)) == ToLower(s)
  {
    var once := ToLower(s);
    assert forall i :: 0 <= i < |once| ==> LowerChar(once[i]) == once[i];
  }

  /** The lines of a resource, each lowercased, in order. */
  function LowerAll(lines: seq<string>): (ws: seq<string>)
    ensures |ws| == |lines|
    ensures forall k :: 0 <= k < |lines| ==> ws[k] == ToLower(lines[k])
  {
    seq(|lines|, k requires 0 <= k < |lines| => ToLower(lines[k]))
  }

  // ---------------------------------------------------------------------
  // Prefix filter
  // ---------------------------------------------------------------------

  /** `a` is obtained from `b` by deleting elements, keeping their order. */
  predicate IsSubsequence(a: seq<string>, b: seq<string>)
    decreases |b|
  {
    if a == [] then true
    else if b == [] then false
    else (a[0] == b[0] && IsSubsequence(a[1..], b[1..])) || IsSubsequence(a, b[1..])
  }

  /**
    The words of `ws` that start with `prefix`, in order: a subsequence of
    `ws` holding every matching word as often as `ws` does and no other.
   */
  function Filter(ws: seq<string>, prefix: string): (r: seq<string>)
    ensures IsSubsequence(r, ws)
    ensures forall k :: 0 <= k < |r| ==> prefix <= r[k]
    ensures forall w :: multiset(r)[w] == if prefix <= w then multiset(ws)[w] else 0
  {
    if ws == [] then []
    else
      var rest := Filter(ws[1..], prefix);
      assert ws == [ws[0]] + ws[1..];
      if prefix <= ws[0] then [ws[0]] + rest else rest
  }

  /** A prefix holding an upper-case letter matches no lower-case word. */
  lemma {:induction false} UpperPrefixMatchesNothing(ws: seq<string>, prefix: string)
    requires forall k :: 0 <= k < |ws| ==> IsLowerWord(ws[k])
    requires exists i :: 0 <= i < |prefix| && IsUpper(prefix[i])
    ensures Filter(ws, prefix) == []
  {
    if ws != [] {
      UpperPrefixMatchesNothing(ws[1..], prefix);
    }
  }

  /**
    After loading `lines`, a word is returned for `prefix` exactly when it
    starts with `prefix` and is the lowercasing of some line.
   */
  lemma LoadedQueryMembers(lines: seq<string>, prefix: string)
    ensures forall w :: w in Filter(LowerAll(lines), prefix) <==>
              prefix <= w && exists k :: 0 <= k < |lines| && ToLower(lines[k]) == w
  {
    var ws := LowerAll(lines);
    forall w
      ensures w in Filter(ws, prefix) <==> prefix <= w && exists k :: 0 <= k < |lines| && ToLower(lines[k]) == w
    {
      assert w in Filter(ws, prefix) <==> multiset(Filter(ws, prefix))[w] > 0;
      assert w in ws <==> multiset(ws)[w] > 0;
      if w in ws {
        var k :| 0 <= k < |ws| && ws[k] == w;
        assert ToLower(lines[k]) == w;
      }
      if k :| 0 <= k < |lines| && ToLower(lines[k]) == w {
        assert ws[k] == w;
      }
    }
  }

  // ---------------------------------------------------------------------
  // The manager
  // ---------------------------------------------------------------------

  /**
    The raw resource `loadDictionary` reads: missing (opening it throws before
    the `try`), or readable, giving `lines` and then either the end of the
    stream or an I/O error, which is caught.
   */
  datatype Resource = Missing | Readable(lines: seq<string>, failsAfterLines: bool)

  class DictionaryManager {
    /** The loaded words (an `ArrayList`). */
    var words: seq<string>
    var loaded: bool

    constructor ()
      ensures words == [] && !loaded
    {
      words := [];
      loaded := false;
    }

    function IsLoaded(): bool
      reads this
    {
      loaded
    }

    method ClearWords()
      modifies this`words
      ensures words == []
    {
      words := [];
    }

    method AddWord(word: string)
      modifies this`words
      ensures words == old(words) + [word]
    {
      words := words + [word];
    }

    /**
      `loadDictionary`: clears the list and appends every line read,
      lowercased; a read error ends the loop and is swallowed, so the words
      read so far stay and the manager is marked loaded either way. A missing
      resource throws before anything changes.
     */
    method LoadDictionary(resource: Resource) returns (completed: bool)
      modifies this`words, this`loaded
      ensures completed <==> resource.Readable?
      ensures resource.Missing? ==> words == old(words) && loaded == old(loaded)
      ensures resource.Readable? ==> words == LowerAll(resource.lines) && loaded
      ensures resource.Readable? ==> forall k :: 0 <= k < |words| ==> IsLowerWord(words[k])
      ensures old(loaded) ==> loaded
    {
      if resource.Missing? {
        return false;
      }
      var lines := resource.lines;
      ClearWords();
      var i := 0;
      while i < |lines|
        invariant 0 <= i <= |lines|
        invariant words == LowerAll(lines[..i])
      {
        AddWord(ToLower(lines[i]));
        i := i + 1;
      }
      assert lines[..i] == lines;
      // an I/O error after the lines read so far is caught here
      loaded := true;
      forall k | 0 <= k < |words|
        ensures IsLowerWord(words[k])
      {
        ToLowerIdempotent(lines[k]);
      }
      return true;
    }

    /** `query`: nothing before loading or for an empty prefix; otherwise the words starting with the prefix. */
    function Query(startsWith: string): (r: seq<string>)
      reads this
      ensures !loaded || startsWith == [] ==> r == []
      ensures loaded && startsWith != [] ==>
                && IsSubsequence(r, words)
                && (forall k :: 0 <= k < |r| ==> startsWith <= r[k])
                && (forall w :: multiset(r)[w] == if startsWith <= w then multiset(words)[w] else 0)
    {
      if !loaded || startsWith == [] then [] else Filter(words, startsWith)
    }
  }
}
