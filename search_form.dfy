/**
 The search form (src/components/SearchForm.tsx): the `query` text it holds,
 the submit handler that trims it and refuses an empty query, the rule that
 disables the submit button, and the example-flight buttons.
 */
module SearchForm {
  import opened Optional
  import opened Flights

  /** White space as `String.prototype.trim` strips it, restricted to ASCII:
      space, tab, line feed, vertical tab, form feed and carriage return. */
  predicate IsSpace(c: char)
  {
    c == ' ' || 9 <= c as int <= 13
  }

  predicate AllSpace(s: string)
  {
    forall i :: 0 <= i < |s| ==> IsSpace(s[i])
  }

  /** The longest suffix of `s` that does not start with white space. */
  function TrimStart(s: string): (r: string)
    ensures |r| <= |s| && r == s[|s| - |r|..]
    ensures forall i :: 0 <= i < |s| - |r| ==> IsSpace(s[i])
    ensures r != [] ==> !IsSpace(r[0])
  {
    if s != [] && IsSpace(s[0]) then TrimStart(s[1..]) else s
  }

  /** The longest prefix of `s` that does not end with white space. */
  function TrimEnd(s: string): (r: string)
    ensures |r| <= |s| && r == s[..|r|]
    ensures forall i :: |r| <= i < |s| ==> IsSpace(s[i])
    ensures r != [] ==> !IsSpace(r[|r| - 1])
  {
    if s != [] && IsSpace(s[|s| - 1]) then TrimEnd(s[..|s| - 1]) else s
  }

  /** A slice whose characters are all white space, as `AllSpace`. */
  lemma AllSpaceSlice(s: string, lo: int, hi: int)
    requires 0 <= lo <= hi <= |s|
    requires forall i :: lo <= i < hi ==> IsSpace(s[i])
    ensures AllSpace(s[lo..hi])
  {
    forall j | 0 <= j < hi - lo ensures IsSpace(s[lo..hi][j]) {
      assert s[lo..hi][j] == s[lo + j];
    }
  }

  /** Stripping the end after the start leaves the slice of `s` between a
      white-space prefix and a white-space suffix. */
  lemma TrimEndOfTrimStart(s: string)
    ensures var t := TrimStart(s);
      var r := TrimEnd(t);
      var a := |s| - |t|;
      && a + |r| <= |s|
      && r == s[a..a + |r|]
      && AllSpace(s[..a])
      && AllSpace(s[a + |r|..])
  {
    var t := TrimStart(s);
    var r := TrimEnd(t);
    var a := |s| - |t|;
    assert r == s[a..a + |r|];
    AllSpaceSlice(s, 0, a);
    assert s[..a] == s[0..a];
    forall i | a + |r| <= i < |s| ensures IsSpace(s[i]) {
      assert s[i] == t[i - a];
    }
    AllSpaceSlice(s, a + |r|, |s|);
    assert s[a + |r|..] == s[a + |r|..|s|];
  }

  /** `String.prototype.trim`: `s` without its leading and trailing white
      space. The result is the slice of `s` between a white-space prefix and
      a white-space suffix; it is empty exactly when `s` is all white space,
      and otherwise neither starts nor ends with white space. */
  function Trim(s: string): (r: string)
    ensures var a := |s| - |TrimStart(s)|;
      && a + |r| <= |s|
      && r == s[a..a + |r|]
      && AllSpace(s[..a])
      && AllSpace(s[a + |r|..])
    ensures r == [] <==> AllSpace(s)
    ensures r != [] ==> !IsSpace(r[0]) && !IsSpace(r[|r| - 1])
    ensures |r| <= |s|
  {
    var t := TrimStart(s);
    var r := TrimEnd(t);
    TrimEndOfTrimStart(s);
    assert r == [] ==> t == [] by {
      assert t != [] ==> IsSpace(t[0]) || r != [];
    }
    assert r != [] ==> !IsSpace(r[0]) by {
      if r != [] {
        assert r[0] == t[0];
      }
    }
    r
  }

  /** A padded flight number trims to the bare flight number. */
  lemma TrimPaddedExample()
    ensures Trim("  AA123 ") == "AA123"
  {
    assert TrimStart("  AA123 ") == "AA123 " by {
      assert TrimStart("AA123 ") == "AA123 ";
      assert " AA123 "[1..] == "AA123 ";
      assert "  AA123 "[1..] == " AA123 ";
    }
    assert TrimEnd("AA123 ") == "AA123" by {
      assert "AA123 "[..5] == "AA123";
      assert TrimEnd("AA123") == "AA123";
    }
  }

  /** Trimming a trimmed string changes nothing. */
  lemma TrimIdempotent(s: string)
    ensures Trim(Trim(s)) == Trim(s)
  {
    var r := Trim(s);
    if r != [] {
      assert TrimStart(r) == r;
      assert TrimEnd(r) == r;
    }
  }

  /** `handleSubmit`: the query handed to `onSearch`, or None when nothing is
      searched. A search happens exactly when the query holds a
      non-white-space character, and what is searched is the trimmed query:
      non-empty, without white space at either end, and fixed by trimming. */
  function Submission(query: string): (search: Option<string>)
    ensures search.None? <==> AllSpace(query)
    ensures search.Some? ==>
              && search.value == Trim(query)
              && search.value != []
              && !IsSpace(search.value[0]) && !IsSpace(search.value[|search.value| - 1])
              && Trim(search.value) == search.value
  {
    if Trim(query) != [] then
      TrimIdempotent(query);
      Some(Trim(query))
    else
      None
  }

  /** The submit button's `disabled` rule: disabled exactly while a search is
      loading or while the query is all white space. */
  function SubmitDisabled(loading: bool, query: string): (disabled: bool)
    ensures disabled <==> loading || AllSpace(query)
    ensures !disabled ==> Submission(query).Some?
  {
    loading || Trim(query) == []
  }

  /** The example-flight buttons, in display order. */
  const ExampleFlights: seq<string> := ["AA123", "UA456", "DL789"]

  /** The example flights are exactly the keys of the lookup table, and each
      one loads its own canned record rather than the not-found record. */
  lemma ExampleFlightsAreKnownKeys()
    ensures forall k :: k in ExampleFlights <==> k in MockFlights
    ensures forall i :: 0 <= i < |ExampleFlights| ==>
              Lookup(ExampleFlights[i]).status != "Flight Not Found"
  {
    forall i | 0 <= i < |ExampleFlights|
      ensures Lookup(ExampleFlights[i]).status != NotFoundStatus
    {
      assert ExampleFlights[i] in MockFlights;
    }
  }

  /** The form's own state: the text in the input. */
  class Form {
    var query: string

    constructor ()
      ensures query == ""
    {
      query := "";
    }

    /** The input's `onChange`: the query becomes the typed value. */
    method Change(value: string)
      modifies this
      ensures query == value
    {
      query := value;
    }

    /** An example button's `onClick`: the query becomes that example, a
        known flight number, and submitting now searches for it unchanged. */
    method ChooseExample(i: nat)
      requires i < |ExampleFlights|
      modifies this
      ensures query == ExampleFlights[i]
      ensures query in MockFlights
      ensures Submission(query) == Some(query)
    {
      query := ExampleFlights[i];
      ExampleFlightsAreKnownKeys();
      assert !IsSpace(query[0]) && !IsSpace(query[|query| - 1]);
      assert TrimStart(query) == query;
      assert TrimEnd(query) == query;
    }

    /** `handleSubmit`: the argument passed to `onSearch`, if it is called. */
    method Submit() returns (search: Option<string>)
      ensures search == Submission(query)
    {
      var trimmed := Trim(query);
      if trimmed != [] {
        search := Some(trimmed);
      } else {
        search := None;
      }
    }
  }
}
