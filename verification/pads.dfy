/**
 * The lip-sync `pads` option: a whitespace-separated list of integers, parsed
 * with `list(map(int, text.split()))` and printed back with
 * `' '.join(map(str, pads))`.
 */
module Pads {
  import opened Wrappers
  import opened Text
  import opened Numerals

  /** `int(token)` on a token that is not an integer raises ValueError. */
  datatype PadsError = ValueError(token: string)

  /** Every token is an integer literal `int` accepts. */
  predicate AllIntegers(toks: seq<string>) {
    forall k :: 0 <= k < |toks| ==> ParseInt(toks[k]).Some?
  }

  /** `list(map(int, toks))`: the first bad token raises. */
  function ParseAll(toks: seq<string>): (r: Result<seq<int>, PadsError>)
    ensures r.Success? <==> AllIntegers(toks)
    ensures r.Success? ==> |r.value| == |toks|
    ensures r.Success? ==> forall k :: 0 <= k < |toks| ==> r.value[k] == ParseInt(toks[k]).value
    ensures r.Failure? ==> exists k :: 0 <= k < |toks| && toks[k] == r.error.token && ParseInt(toks[k]).None?
  {
    if |toks| == 0 then Success([])
    else
      match ParseInt(toks[0])
      case None => Failure(ValueError(toks[0]))
      case Some(v) =>
        match ParseAll(toks[1..])
        case Failure(e) => Failure(e)
        case Success(vs) => Success([v] + vs)
  }

  /** `list(map(int, text.split()))`: any number of values, no count check. */
  function ParsePads(text: string): (r: Result<seq<int>, PadsError>)
    ensures r.Success? <==> AllIntegers(Words(text))
    ensures r.Success? ==> |r.value| == |Words(text)|
  {
    ParseAll(Words(text))
  }

  /** `str` of every value. */
  function ShowAll(pads: seq<int>): (r: seq<string>)
    ensures |r| == |pads|
    ensures forall k :: 0 <= k < |pads| ==> r[k] == ShowInt(pads[k])
  {
    seq(|pads|, k requires 0 <= k < |pads| => ShowInt(pads[k]))
  }

  /** `' '.join(map(str, pads))`. */
  function PrintPads(pads: seq<int>): string {
    Join(ShowAll(pads), " ")
  }

  lemma ShowIntIsWord(i: int)
    ensures IsWord(ShowInt(i))
  {
    var s := ShowInt(i);
    if i < 0 {
      assert forall k :: 1 <= k < |s| ==> s[k] == ShowNat(-i)[k - 1];
    }
  }

  lemma {:induction false} ParseAllShowAll(pads: seq<int>)
    ensures ParseAll(ShowAll(pads)) == Success(pads)
  {
    if |pads| > 0 {
      ParseShowInt(pads[0]);
      assert ShowAll(pads)[1..] == ShowAll(pads[1..]);
      ParseAllShowAll(pads[1..]);
      assert pads == [pads[0]] + pads[1..];
    }
  }

  /** Printing a list of pads and parsing the text gives the same list back. */
  lemma ParsePrintPads(pads: seq<int>)
    ensures ParsePads(PrintPads(pads)) == Success(pads)
  {
    forall k | 0 <= k < |pads|
      ensures IsWord(ShowAll(pads)[k])
    {
      ShowIntIsWord(pads[k]);
    }
    WordsOfJoin(ShowAll(pads));
    ParseAllShowAll(pads);
  }

  /**
   * The printed form is canonical: whatever spelling was accepted (extra
   * blanks, leading zeros, '+' signs), printing its values gives a text that
   * parses to the same values and prints to itself.
   */
  lemma PrintedPadsCanonical(text: string)
    requires ParsePads(text).Success?
    ensures ParsePads(PrintPads(ParsePads(text).value)) == ParsePads(text)
    ensures PrintPads(ParsePads(PrintPads(ParsePads(text).value)).value) == PrintPads(ParsePads(text).value)
  {
    ParsePrintPads(ParsePads(text).value);
  }

  /** The default `pads` value of the lip-sync endpoint, "0 10 0 0". */
  const DEFAULT_PADS := "0 10 0 0"

  lemma DefaultPadsValues()
    ensures ParsePads(DEFAULT_PADS) == Success([0, 10, 0, 0])
  {
    assert ShowNat(10) == "10";
    assert ShowAll([0, 10, 0, 0]) == ["0", "10", "0", "0"];
    assert PrintPads([0, 10, 0, 0]) == DEFAULT_PADS;
    ParsePrintPads([0, 10, 0, 0]);
  }
}
