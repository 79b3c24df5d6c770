/**
 * `DatalistTextWidget.format_value`: a free-text input offered with a list
 * of suggestions. The typed value is replaced by the value of the first
 * choice one of whose strings equals it, ignoring case; failing that, the
 * first choice one of whose strings starts with it; failing that, the first
 * choice one of whose strings contains it. A value that matches nothing, and
 * an empty value, are shown as they are.
 */
module Datalist {
  import opened Wrappers
  import opened Text

  /** The three passes over the choices, in the order they are tried. */
  datatype MatchKind = Exact | Prefix | Substring

  /** Whether one string of a choice matches the typed value in the given pass. */
  predicate Matches(kind: MatchKind, candidate: string, value: string) {
    match kind
    case Exact => Lower(candidate) == Lower(value)
    case Prefix => StartsWith(Lower(candidate), Lower(value))
    case Substring => Contains(Lower(candidate), Lower(value))
  }

  /** `any(...)` over the strings of one choice (its value and its label). */
  predicate AnyMatches(choice: seq<string>, kind: MatchKind, value: string) {
    exists c :: c in choice && Matches(kind, c, value)
  }

  /** Choice `i` is the first one that matches in the given pass. */
  predicate FirstMatchAt(choices: seq<seq<string>>, kind: MatchKind, value: string, i: int) {
    0 <= i < |choices| && AnyMatches(choices[i], kind, value) &&
    forall j :: 0 <= j < i ==> !AnyMatches(choices[j], kind, value)
  }

  /** One `for choice in self.choices` pass from choice `start` on: the index of the first match. */
  function FirstMatch(choices: seq<seq<string>>, kind: MatchKind, value: string, start: nat): (r: Option<nat>)
    requires start <= |choices|
    requires forall j :: 0 <= j < start ==> !AnyMatches(choices[j], kind, value)
    ensures r.Some? ==> FirstMatchAt(choices, kind, value, r.value) && |choices[r.value]| > 0
    ensures r.None? ==> forall j :: 0 <= j < |choices| ==> !AnyMatches(choices[j], kind, value)
    decreases |choices| - start
  {
    if start == |choices| then None
    else if AnyMatches(choices[start], kind, value) then Some(start)
    else FirstMatch(choices, kind, value, start + 1)
  }

  /** The first choice that matches is the only one. */
  lemma FirstMatchIsUnique(choices: seq<seq<string>>, kind: MatchKind, value: string, i: int, j: int)
    requires FirstMatchAt(choices, kind, value, i) && FirstMatchAt(choices, kind, value, j)
    ensures i == j
  {
  }

  /**
   * `format_value`: `formatted` is what `Select.format_value` made of the
   * value, a list of strings; its first element is used (`None` stands for
   * the `IndexError` of an empty list). A non-empty value is replaced by the
   * first element of the first matching choice, pass by pass.
   */
  function FormatValue(choices: seq<seq<string>>, formatted: seq<string>): (r: Option<string>)
    ensures r.None? <==> formatted == []
    ensures formatted != [] && formatted[0] == "" ==> r == Some("")
    ensures r.Some? ==>
              r.value == formatted[0] ||
              exists i :: 0 <= i < |choices| && |choices[i]| > 0 && r.value == choices[i][0]
  {
    if formatted == [] then None
    else
      var value := formatted[0];
      if value == "" then Some(value)
      else match FirstMatch(choices, Exact, value, 0)
        case Some(i) => Some(choices[i][0])
        case None =>
          match FirstMatch(choices, Prefix, value, 0)
          case Some(i) => Some(choices[i][0])
          case None =>
            match FirstMatch(choices, Substring, value, 0)
            case Some(i) => Some(choices[i][0])
            case None => Some(value)
  }

  /** An exact match is a prefix, and a prefix is contained. */
  lemma MatchKindsAreNested(candidate: string, value: string)
    ensures Matches(Exact, candidate, value) ==> Matches(Prefix, candidate, value)
    ensures Matches(Prefix, candidate, value) ==> Matches(Substring, candidate, value)
  {
    if Matches(Prefix, candidate, value) {
      PrefixIsContained(Lower(candidate), Lower(value));
    }
  }

  /**
   * Which choice is picked: the first exact match wins over any prefix
   * match, a prefix match over any substring match, and within a pass the
   * earliest choice wins.
   */
  lemma FormatValuePasses(choices: seq<seq<string>>, value: string, rest: seq<string>, i: int)
    requires value != ""
    ensures FirstMatchAt(choices, Exact, value, i) ==>
              FormatValue(choices, [value] + rest) == Some(choices[i][0])
    ensures (forall j :: 0 <= j < |choices| ==> !AnyMatches(choices[j], Exact, value)) &&
            FirstMatchAt(choices, Prefix, value, i) ==>
              FormatValue(choices, [value] + rest) == Some(choices[i][0])
    ensures (forall j :: 0 <= j < |choices| ==> !AnyMatches(choices[j], Prefix, value)) &&
            FirstMatchAt(choices, Substring, value, i) ==>
              FormatValue(choices, [value] + rest) == Some(choices[i][0])
  {
    var formatted := [value] + rest;
    assert formatted[0] == value;
    var e := FirstMatch(choices, Exact, value, 0);
    var p := FirstMatch(choices, Prefix, value, 0);
    var s := FirstMatch(choices, Substring, value, 0);
    if FirstMatchAt(choices, Exact, value, i) {
      FirstMatchIsUnique(choices, Exact, value, i, e.value);
    }
    if (forall j :: 0 <= j < |choices| ==> !AnyMatches(choices[j], Exact, value)) &&
       FirstMatchAt(choices, Prefix, value, i) {
      FirstMatchIsUnique(choices, Prefix, value, i, p.value);
    }
    if (forall j :: 0 <= j < |choices| ==> !AnyMatches(choices[j], Prefix, value)) &&
       FirstMatchAt(choices, Substring, value, i) {
      NoPrefixMeansNoExact(choices, value);
      FirstMatchIsUnique(choices, Substring, value, i, s.value);
    }
  }

  /** Without any prefix match there is no exact match either. */
  lemma NoPrefixMeansNoExact(choices: seq<seq<string>>, value: string)
    requires forall j :: 0 <= j < |choices| ==> !AnyMatches(choices[j], Prefix, value)
    ensures forall j :: 0 <= j < |choices| ==> !AnyMatches(choices[j], Exact, value)
  {
    forall j, c | 0 <= j < |choices| && c in choices[j]
      ensures !Matches(Exact, c, value)
    {
      MatchKindsAreNested(c, value);
    }
  }

  /** A value no choice string contains, ignoring case, is shown as typed. */
  lemma UnmatchedValueIsKept(choices: seq<seq<string>>, value: string, rest: seq<string>)
    requires forall j :: 0 <= j < |choices| ==> !AnyMatches(choices[j], Substring, value)
    ensures FormatValue(choices, [value] + rest) == Some(value)
  {
    var formatted := [value] + rest;
    assert formatted[0] == value;
    forall j, c | 0 <= j < |choices| && c in choices[j]
      ensures !Matches(Prefix, c, value)
    {
      MatchKindsAreNested(c, value);
    }
    NoPrefixMeansNoExact(choices, value);
  }
}
