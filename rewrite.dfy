/** `cal_handler`: parse the fetched text, prefix the calendar's `NAME`,
    inject the relay's fields, serialise, then apply the literal
    find/replace pairs in order. */
module Rewrite {
  import opened Text
  import opened Ical
  import opened Http

  /** One entry of the replacement list: a `[find, replace]` pair when it has
      exactly two elements, otherwise skipped. */
  type Pair = seq<string>

  function ApplyPair(text: string, pair: Pair): string
  {
    if |pair| == 2 then Replace(text, pair[0], pair[1]) else text
  }

  /** The text after every pair, first to last. */
  function ApplyAll(text: string, pairs: seq<Pair>): (r: string)
    ensures (forall i :: 0 <= i < |pairs| ==> |pairs[i]| != 2) ==> r == text
    decreases |pairs|
  {
    if pairs == [] then text else ApplyAll(ApplyPair(text, pairs[0]), pairs[1..])
  }

  /** The `for i in replacements` loop. */
  method ApplyReplacements(cal: string, replacements: seq<Pair>) returns (out: string)
    ensures out == ApplyAll(cal, replacements)
  {
    out := cal;
    var i := 0;
    while i < |replacements|
      invariant 0 <= i <= |replacements|
      invariant ApplyAll(out, replacements[i..]) == ApplyAll(cal, replacements)
    {
      assert replacements[i..][1..] == replacements[i + 1..];
      if |replacements[i]| == 2 {
        out := Replace(out, replacements[i][0], replacements[i][1]);
      }
      i := i + 1;
    }
  }

  /** Pairs apply in list order: a list is its first part, then its second. */
  lemma {:induction false} ApplyAllAppend(text: string, a: seq<Pair>, b: seq<Pair>)
    ensures ApplyAll(text, a + b) == ApplyAll(ApplyAll(text, a), b)
    decreases |a|
  {
    if a == [] {
      assert a + b == b;
    } else {
      assert (a + b)[0] == a[0];
      assert (a + b)[1..] == a[1..] + b;
      ApplyAllAppend(ApplyPair(text, a[0]), a[1..], b);
    }
  }

  /** A pair of the wrong length is skipped and does not stop the pairs after it. */
  lemma MalformedPairSkipped(text: string, before: seq<Pair>, pair: Pair, after: seq<Pair>)
    requires |pair| != 2
    ensures ApplyAll(text, before + [pair] + after) == ApplyAll(text, before + after)
  {
    ApplyAllAppend(text, before + [pair], after);
    ApplyAllAppend(text, before, [pair]);
    ApplyAllAppend(text, before, after);
  }

  /** The pair is skipped, or its `find` is non-empty and absent from `text`. */
  predicate AbsentFrom(pair: Pair, text: string)
  {
    |pair| != 2 || (pair[0] != "" && !Occurs(pair[0], text))
  }

  /** When every pair is skipped or looks for text that is not there, the
      text is unchanged; the empty list is the identity. */
  lemma {:induction false} AbsentPairsKeepText(text: string, pairs: seq<Pair>)
    requires forall i :: 0 <= i < |pairs| ==> AbsentFrom(pairs[i], text)
    ensures ApplyAll(text, pairs) == text
    decreases |pairs|
  {
    if pairs != [] {
      if |pairs[0]| == 2 {
        ReplaceAbsent(text, pairs[0][0], pairs[0][1]);
      }
      assert forall i :: 0 <= i < |pairs[1..]| ==> AbsentFrom(pairs[1..][i], text) by {
        forall i | 0 <= i < |pairs[1..]| ensures AbsentFrom(pairs[1..][i], text) {
          assert pairs[1..][i] == pairs[i + 1];
        }
      }
      AbsentPairsKeepText(text, pairs[1..]);
    }
  }

  /** What `Calendar.from_ical` gives: a calendar, or the `ValueError` it
      raises on text that is not a calendar. */
  datatype ParseOutcome = Parsed(cal: CalData) | ValueError

  const ParseErrorMessage: string := "There has been an error with parsing the Calender"

  /** The calendar after the rewrite, before serialisation. */
  function RewrittenCal(d: CalData): CalData
    requires NameKey in d.props
  {
    CalData(Rewritten(d.props), d.components)
  }

  /** What `cal_handler` yields for the fetched text `cal`, given the parser
      and serialiser the calendar library provides. */
  function HandledCal(cal: string, parse: string -> ParseOutcome, toIcal: CalData -> string,
                      replacements: seq<Pair>): (o: Outcome)
    ensures o.Aborted? <==> parse(cal).ValueError?
    ensures o.Aborted? ==> o.error.code == 500
    ensures o.Uncaught? <==> parse(cal).Parsed? && NameKey !in parse(cal).cal.props
  {
    match parse(cal)
    case ValueError => Aborted(Abort(500, ParseErrorMessage))
    case Parsed(d) =>
      if NameKey !in d.props then Uncaught
      else Done(ApplyAll(toIcal(RewrittenCal(d)), replacements))
  }

  /** `cal_handler` on the mutable calendar. */
  method CalHandler(cal: string, parse: string -> ParseOutcome, toIcal: CalData -> string,
                    replacements: seq<Pair>) returns (o: Outcome)
    ensures o == HandledCal(cal, parse, toIcal, replacements)
  {
    var parsed := parse(cal);
    if parsed.ValueError? {
      return Aborted(Abort(500, ParseErrorMessage));
    }
    var ical := new Calendar.FromData(parsed.cal);
    var ok := ical.PrefixName();
    if !ok {
      return Uncaught;
    }
    ical.InjectHeaders();
    var text := toIcal(ical.Data());
    text := ApplyReplacements(text, replacements);
    return Done(text);
  }

  /** What a finished rewrite holds: the serialised calendar whose `NAME` and display name are both the
      prefixed name and whose components are untouched, with the pairs
      applied after serialisation. */
  lemma HandledCalCases(cal: string, parse: string -> ParseOutcome, toIcal: CalData -> string,
                        replacements: seq<Pair>)
    ensures HandledCal(cal, parse, toIcal, replacements).Done? ==>
      var d := parse(cal).cal;
      var r := RewrittenCal(d);
      parse(cal).Parsed? && NameKey in d.props
      && r.props[NameKey] == "Elephant " + d.props[NameKey]
      && r.props[CalnameKey] == r.props[NameKey]
      && r.components == d.components
      && HandledCal(cal, parse, toIcal, replacements).text == ApplyAll(toIcal(r), replacements)
  {
    if parse(cal).Parsed? && NameKey in parse(cal).cal.props {
      RewrittenCalname(parse(cal).cal.props);
    }
  }

  /** With the empty list that `get_replacement_list` always returns, the
      response is exactly the serialised rewritten calendar. */
  lemma NoReplacementsSendSerialised(cal: string, parse: string -> ParseOutcome, toIcal: CalData -> string)
    requires parse(cal).Parsed? && NameKey in parse(cal).cal.props
    ensures HandledCal(cal, parse, toIcal, []) == Done(toIcal(RewrittenCal(parse(cal).cal)))
  {
  }
}
