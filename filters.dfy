/** Recognizer.filter: post-processing of an extracted text by character class. */
module Filters {
  import opened Outcomes

  /** The `filter` attribute of a template box. */
  datatype FilterKind = Numeric | Alphabetic | Alphanumeric | NoFilter | Unknown(name: string)

  const Digits: string := "0123456789"

  /** Lower-case only: a to z with c-cedilla after c and n-tilde after n. */
  const Letters: string := "abc\U{00E7}defghijklmn\U{00F1}opqrstuvwxyz"

  /** The filters that iterate over the text and keep a character class. */
  predicate KeepsClass(kind: FilterKind)
  {
    kind.Numeric? || kind.Alphabetic? || kind.Alphanumeric?
  }

  /** The characters a class-keeping filter lets through. */
  function Alphabet(kind: FilterKind): string
    requires KeepsClass(kind)
  {
    match kind
    case Numeric => Digits
    case Alphabetic => Letters
    case Alphanumeric => Digits + Letters
  }

  /** The characters of `s` that occur in `alphabet`, in their original order. */
  function Keep(s: string, alphabet: string): string
  {
    if s == [] then []
    else (if s[0] in alphabet then [s[0]] else []) + Keep(s[1..], alphabet)
  }

  /**
   * Recognizer.filter(value, kind). A missing text is iterated over by the
   * three class filters, which raises; `none` and unknown kinds pass the value on.
   */
  function Filter(value: Option<string>, kind: FilterKind): (r: Outcome<Option<string>>)
    ensures !KeepsClass(kind) ==> r == Ok(value)
    ensures r.Raised? <==> value.None? && KeepsClass(kind)
    ensures r.Raised? ==> r.error == NotIterable
    ensures KeepsClass(kind) && value.Some? ==> r.Ok? && r.value.Some?
  {
    if !KeepsClass(kind) then Ok(value)
    else if value.None? then Raised(NotIterable)
    else Ok(Some(Keep(value.value, Alphabet(kind))))
  }

  /** Keep works piece by piece: it distributes over concatenation. */
  lemma {:induction false} KeepConcat(a: string, b: string, alphabet: string)
    ensures Keep(a + b, alphabet) == Keep(a, alphabet) + Keep(b, alphabet)
  {
    if a != [] {
      assert a + b != [] && (a + b)[0] == a[0];
      assert (a + b)[1..] == a[1..] + b;
      KeepConcat(a[1..], b, alphabet);
    } else {
      assert a + b == b;
    }
  }

  /** Each character is kept exactly as often as it occurs, if it is in the alphabet. */
  lemma {:induction false} KeepCounts(s: string, alphabet: string, c: char)
    ensures multiset(Keep(s, alphabet))[c] == if c in alphabet then multiset(s)[c] else 0
  {
    if s != [] {
      KeepCounts(s[1..], alphabet, c);
      assert s == [s[0]] + s[1..];
    }
  }

  /** Every kept character is in the alphabet. */
  lemma {:induction false} KeepMembers(s: string, alphabet: string)
    ensures forall i :: 0 <= i < |Keep(s, alphabet)| ==> Keep(s, alphabet)[i] in alphabet
    ensures |Keep(s, alphabet)| <= |s|
  {
    if s != [] {
      KeepMembers(s[1..], alphabet);
    }
  }

  /** Keeping a class twice is keeping it once. */
  lemma {:induction false} KeepIdempotent(s: string, alphabet: string)
    ensures Keep(Keep(s, alphabet), alphabet) == Keep(s, alphabet)
  {
    if s != [] {
      var head := if s[0] in alphabet then [s[0]] else [];
      KeepConcat(head, Keep(s[1..], alphabet), alphabet);
      KeepIdempotent(s[1..], alphabet);
    }
  }

  /** A string made only of alphabet characters is kept whole. */
  lemma {:induction false} KeepAllMembers(s: string, alphabet: string)
    requires forall i :: 0 <= i < |s| ==> s[i] in alphabet
    ensures Keep(s, alphabet) == s
  {
    if s != [] {
      KeepAllMembers(s[1..], alphabet);
    }
  }

  /** A string with no alphabet character is dropped entirely. */
  lemma {:induction false} KeepNoMembers(s: string, alphabet: string)
    requires forall i :: 0 <= i < |s| ==> s[i] !in alphabet
    ensures Keep(s, alphabet) == []
  {
    if s != [] {
      KeepNoMembers(s[1..], alphabet);
    }
  }

  /** Applying the same filter to its own output changes nothing. */
  lemma FilterIdempotent(value: Option<string>, kind: FilterKind)
    requires Filter(value, kind).Ok?
    ensures Filter(Filter(value, kind).value, kind) == Filter(value, kind)
  {
    if KeepsClass(kind) {
      KeepIdempotent(value.value, Alphabet(kind));
    }
  }

  /** Upper-case letters never survive the alphabetic or alphanumeric filter. */
  lemma UpperCaseDropped(s: string, kind: FilterKind)
    requires kind.Alphabetic? || kind.Alphanumeric?
    ensures forall i :: 0 <= i < |Filter(Some(s), kind).value.value| ==>
              !('A' <= Filter(Some(s), kind).value.value[i] <= 'Z')
  {
    KeepMembers(s, Alphabet(kind));
  }
}

/** Worked examples of the filter on one input. */
module FilterExamples {
  import opened Outcomes
  import opened Filters

  lemma DigitsOfExample(s: string)
    requires s == "AB12-34"
    ensures Keep(s, Digits) == "1234"
  {
    var tail := s[5..];
    assert tail == "34";
    KeepAllMembers(tail, Digits);
    assert s[4..][1..] == tail && s[4] == '-';
    assert Keep(s[4..], Digits) == "34";
    assert s[3..][1..] == s[4..] && s[3] == '2';
    assert s[2..][1..] == s[3..] && s[2] == '1';
    assert Keep(s[2..], Digits) == "1234";
    assert s[1..][1..] == s[2..] && s[1] == 'B';
    assert s[0] == 'A';
  }

  /** The worked example: "AB12-34" keeps "1234" under the numeric filter. */
  lemma NumericExample(s: string)
    requires s == "AB12-34"
    ensures Filter(Some(s), Numeric) == Ok(Some("1234"))
  {
    DigitsOfExample(s);
  }

  /** The same input under the alphabetic filter: upper case is dropped, nothing is left. */
  lemma AlphabeticExample(s: string)
    requires s == "AB12-34"
    ensures Filter(Some(s), Alphabetic) == Ok(Some(""))
  {
    assert forall i :: 0 <= i < |s| ==> s[i] in "AB12-34";
    KeepNoMembers(s, Letters);
  }

  /** An unknown filter kind passes the text through unchanged. */
  lemma UnknownKindExample(s: string)
    requires s == "AB12-34"
    ensures Filter(Some(s), Unknown("upper")) == Ok(Some(s))
  {
  }
}
