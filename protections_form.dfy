/** The protections form: the handlers that edit the rope list, the nut,
    cam and screw counts, and the free-text cam field.  Each handler builds
    a new inventory from the one the form was given and hands it to the
    parent; only the cam text is state of the form itself. */
module ProtectionsForm {
  import opened Wrappers
  import opened Js
  import opened Strings
  import opened Seqs
  import opened Protection

  /** Rebuilding an inventory from its own fields changes nothing, so each
      handler's result is its input with the edited field replaced. */
  lemma Rebuild(p: Protections)
    ensures NewProtections(Some(p.AsPatch())) == p
  {
    ProtectionsIdempotent(p);
  }

  /** `handleRopeDiameterChange`: the rope at `index` gets the typed diameter
      (0 when it does not parse) and keeps its length; every other rope and
      every other field is unchanged. */
  method HandleRopeDiameterChange(protections: Protections, index: nat, value: string, parse: ParseReal)
    returns (updated: Protections)
    requires index < |protections.ropes|
    ensures |updated.ropes| == |protections.ropes|
    ensures updated.ropes[index] == Rope(RealOrZero(parse, value), protections.ropes[index].length)
    ensures forall k :: 0 <= k < |updated.ropes| && k != index ==> updated.ropes[k] == protections.ropes[k]
    ensures updated.nuts == protections.nuts && updated.cams == protections.cams
    ensures updated.screws == protections.screws
  {
    var diameter := RealOrZero(parse, value);
    var ropes := new Rope[|protections.ropes|](k requires 0 <= k < |protections.ropes| => protections.ropes[k]);
    ropes[index] := NewRope(Some(ropes[index].(diameter := diameter).AsPatch()));
    var spread := protections.(ropes := ropes[..]);
    updated := NewProtections(Some(spread.AsPatch()));
    Rebuild(spread);
  }

  /** `handleRopeLengthChange`: the same for the length, read with `parseInt`,
      so a fractional length is cut to its integer part by the parser. */
  method HandleRopeLengthChange(protections: Protections, index: nat, value: string, parse: ParseInt)
    returns (updated: Protections)
    requires index < |protections.ropes|
    ensures |updated.ropes| == |protections.ropes|
    ensures updated.ropes[index] == Rope(protections.ropes[index].diameter, IntOrZero(parse, value) as real)
    ensures forall k :: 0 <= k < |updated.ropes| && k != index ==> updated.ropes[k] == protections.ropes[k]
    ensures updated.nuts == protections.nuts && updated.cams == protections.cams
    ensures updated.screws == protections.screws
  {
    var length := IntOrZero(parse, value) as real;
    var ropes := new Rope[|protections.ropes|](k requires 0 <= k < |protections.ropes| => protections.ropes[k]);
    ropes[index] := NewRope(Some(ropes[index].(length := length).AsPatch()));
    var spread := protections.(ropes := ropes[..]);
    updated := NewProtections(Some(spread.AsPatch()));
    Rebuild(spread);
  }

  /** `handleAddRope`: one more rope, a zero one, at the end. */
  function HandleAddRope(protections: Protections): (updated: Protections)
    ensures |updated.ropes| == |protections.ropes| + 1
    ensures updated.ropes[..|protections.ropes|] == protections.ropes
    ensures updated.ropes[|protections.ropes|] == Rope(0.0, 0.0)
    ensures updated == protections.(ropes := updated.ropes)
  {
    var spread := protections.(ropes := protections.ropes + [NewRope(None)]);
    Rebuild(spread);
    NewProtections(Some(spread.AsPatch()))
  }

  /** The start position `splice` uses: a negative index counts from the end. */
  function SpliceStart(length: nat, index: int): nat {
    if index >= 0 then index else if length + index >= 0 then length + index else 0
  }

  /** `handleRemoveRope`: nothing is emitted while one rope or none is left;
      otherwise the rope at `index` is removed (`splice(index, 1)`), the
      others keep their order, and the last rope can never be removed. */
  function HandleRemoveRope(protections: Protections, index: int): (updated: Option<Protections>)
    ensures updated.None? <==> |protections.ropes| <= 1
    ensures updated.Some? ==> |updated.value.ropes| >= 1
    ensures updated.Some? ==> updated.value == protections.(ropes := updated.value.ropes)
    ensures updated.Some? && 0 <= index < |protections.ropes| ==>
      updated.value.ropes == protections.ropes[..index] + protections.ropes[index + 1..]
    ensures updated.Some? && index >= |protections.ropes| ==> updated.value == protections
  {
    if |protections.ropes| <= 1 then None
    else
      var spread := protections.(ropes := RemoveAt(protections.ropes, SpliceStart(|protections.ropes|, index)));
      Rebuild(spread);
      Some(NewProtections(Some(spread.AsPatch())))
  }

  /** `handleNutsChange`: the typed count, 0 when it does not parse. */
  function HandleNutsChange(protections: Protections, value: string, parse: ParseInt): (updated: Protections)
    ensures updated.nuts == IntOrZero(parse, value)
    ensures updated == protections.(nuts := updated.nuts)
  {
    var spread := protections.(nuts := IntOrZero(parse, value));
    Rebuild(spread);
    NewProtections(Some(spread.AsPatch()))
  }

  /** `handleScrewsChange`: the same for the ice screws. */
  function HandleScrewsChange(protections: Protections, value: string, parse: ParseInt): (updated: Protections)
    ensures updated.screws == IntOrZero(parse, value)
    ensures updated == protections.(screws := updated.screws)
  {
    var spread := protections.(screws := IntOrZero(parse, value));
    Rebuild(spread);
    NewProtections(Some(spread.AsPatch()))
  }

  /** One word of the cam field read as a size.  While the user is typing,
      a word ending in '.' is not a number yet and is skipped; on blur it is
      read as whatever `parseFloat` makes of it. */
  function CamToken(token: string, parse: ParseReal, typing: bool): (size: Option<real>)
    ensures size.Some? ==> size == parse(Trim(token))
    ensures typing && EndsWith(token, '.') ==> size.None?
    ensures !typing ==> size == parse(Trim(token))
  {
    if typing && EndsWith(token, '.') then None else parse(Trim(token))
  }

  /** `.map(...)`: each cam word read as a size or as NaN. */
  function ReadCams(tokens: seq<string>, parse: ParseReal, typing: bool): (read: seq<Option<real>>)
    ensures |read| == |tokens|
    ensures forall i :: 0 <= i < |tokens| ==> read[i] == CamToken(tokens[i], parse, typing)
  {
    seq(|tokens|, i requires 0 <= i < |tokens| => CamToken(tokens[i], parse, typing))
  }

  /** `.filter(v => !isNaN(v))`: the numbers, in order. */
  function Numbers(read: seq<Option<real>>): (nums: seq<real>)
    ensures |nums| <= |read|
    decreases |read|
  {
    if read == [] then []
    else (if read[0].Some? then [read[0].value] else []) + Numbers(read[1..])
  }

  /** Filtering two runs of readings is filtering their concatenation. */
  lemma {:induction false} NumbersAppend(a: seq<Option<real>>, b: seq<Option<real>>)
    ensures Numbers(a + b) == Numbers(a) + Numbers(b)
    decreases |a|
  {
    if a == [] {
      assert a + b == b;
    } else {
      NumbersAppend(a[1..], b);
      assert (a + b)[0] == a[0];
      assert (a + b)[1..] == a[1..] + b;
      var head := if a[0].Some? then [a[0].value] else [];
      assert Numbers(a + b) == head + Numbers(a[1..] + b);
      assert Numbers(a) == head + Numbers(a[1..]);
    }
  }

  /** The sizes read from the cam words, in order, skipping every word that
      is not a number. */
  function CamValues(tokens: seq<string>, parse: ParseReal, typing: bool): (sizes: seq<real>)
    ensures |sizes| <= |tokens|
    ensures (forall i :: 0 <= i < |tokens| ==> CamToken(tokens[i], parse, typing).Some?) ==>
      |sizes| == |tokens| && forall i :: 0 <= i < |tokens| ==> sizes[i] == CamToken(tokens[i], parse, typing).value
  {
    var read := ReadCams(tokens, parse, typing);
    if forall i :: 0 <= i < |read| ==> read[i].Some? then
      NumbersAllDefined(read);
      Numbers(read)
    else Numbers(read)
  }

  lemma ReadCamsAppend(a: seq<string>, b: seq<string>, parse: ParseReal, typing: bool)
    ensures ReadCams(a + b, parse, typing) == ReadCams(a, parse, typing) + ReadCams(b, parse, typing)
  {
  }

  /** Reading two runs of words is reading their concatenation. */
  lemma CamValuesAppend(a: seq<string>, b: seq<string>, parse: ParseReal, typing: bool)
    ensures CamValues(a + b, parse, typing) == CamValues(a, parse, typing) + CamValues(b, parse, typing)
  {
    ReadCamsAppend(a, b, parse, typing);
    NumbersAppend(ReadCams(a, parse, typing), ReadCams(b, parse, typing));
  }

  /** A word of the split has no white space, so trimming it is a no-op. */
  lemma CamWord(token: string, parse: ParseReal, typing: bool)
    requires NoSpace(token)
    ensures CamToken(token, parse, typing) == if typing && EndsWith(token, '.') then None else parse(token)
  {
    TrimNoSpace(token);
  }

  /** A word that ends in '.' is dropped while typing but counted on blur. */
  lemma PartialNumberOnlyCountsOnBlur(token: string, parse: ParseReal)
    requires NoSpace(token) && EndsWith(token, '.') && parse(token).Some?
    ensures CamValues([token], parse, true) == []
    ensures CamValues([token], parse, false) == [parse(token).value]
  {
    CamWord(token, parse, true);
    CamWord(token, parse, false);
    assert ReadCams([token], parse, false) == [parse(token)];
    assert ReadCams([token], parse, true) == [None];
  }

  /** `number.toString()`, as far as the form needs it: never empty, no
      white space, and read back by `parseFloat` as the same number; the
      empty string does not parse. */
  ghost predicate ShowLaws(show: real -> string, parse: ParseReal) {
    parse("") == None && forall x :: ShowsAs(show, parse, x)
  }

  ghost predicate ShowsAs(show: real -> string, parse: ParseReal, x: real) {
    show(x) != "" && NoSpace(show(x)) && parse(show(x)) == Some(x)
  }

  function Shown(cams: seq<real>, show: real -> string): (words: seq<string>)
    ensures |words| == |cams|
    ensures forall i :: 0 <= i < |cams| ==> words[i] == show(cams[i])
  {
    seq(|cams|, i requires 0 <= i < |cams| => show(cams[i]))
  }

  /** `cams.join(' ')`, the text the cam field shows for a list of sizes. */
  function CamsText(cams: seq<real>, show: real -> string): string {
    Join(Shown(cams, show), " ")
  }

  /** The cam field on blur: its words read as numbers, the others dropped,
      and the numbers written back separated by single spaces. */
  function BlurText(camsInput: string, parse: ParseReal, show: real -> string): string {
    CamsText(CamValues(SplitWs(camsInput), parse, false), show)
  }

  /** When every reading is a number, filtering keeps them all, in order. */
  lemma {:induction false} NumbersAllDefined(read: seq<Option<real>>)
    requires forall i :: 0 <= i < |read| ==> read[i].Some?
    ensures |Numbers(read)| == |read|
    ensures forall i :: 0 <= i < |read| ==> Numbers(read)[i] == read[i].value
    decreases |read|
  {
    if read != [] {
      NumbersAllDefined(read[1..]);
    }
  }

  /** Reading back the words of shown numbers gives the numbers. */
  lemma CamValuesShown(cams: seq<real>, parse: ParseReal, show: real -> string)
    requires ShowLaws(show, parse)
    ensures CamValues(Shown(cams, show), parse, false) == cams
  {
    var words := Shown(cams, show);
    var read := ReadCams(words, parse, false);
    forall i | 0 <= i < |read|
      ensures read[i] == Some(cams[i])
    {
      assert words[i] == show(cams[i]);
      assert ShowsAs(show, parse, cams[i]);
      CamWord(words[i], parse, false);
    }
    NumbersAllDefined(read);
  }

  /** The text written for a list of sizes reads back as that list. */
  lemma CamsTextRoundTrip(cams: seq<real>, parse: ParseReal, show: real -> string)
    requires ShowLaws(show, parse)
    ensures CamValues(SplitWs(CamsText(cams, show)), parse, false) == cams
  {
    var words := Shown(cams, show);
    if cams == [] {
      assert CamsText(cams, show) == "";
      assert CamValues([""], parse, false) == [] by {
        TrimNoSpace("");
      }
    } else {
      forall i | 0 <= i < |words|
        ensures words[i] != [] && NoSpace(words[i])
      {
        assert words[i] == show(cams[i]);
        assert ShowsAs(show, parse, cams[i]);
      }
      SplitWsJoin(words);
      CamValuesShown(cams, parse, show);
    }
  }

  /** Leaving the cam field a second time changes nothing. */
  lemma BlurIdempotent(camsInput: string, parse: ParseReal, show: real -> string)
    requires ShowLaws(show, parse)
    ensures BlurText(BlurText(camsInput, parse, show), parse, show) == BlurText(camsInput, parse, show)
  {
    CamsTextRoundTrip(CamValues(SplitWs(camsInput), parse, false), parse, show);
  }

  /** The form's own state: the text of the cam field. */
  class CamsField {
    var camsInput: string

    /** Starts as the given sizes joined by spaces. */
    constructor (protections: Protections, show: real -> string)
      ensures camsInput == CamsText(protections.cams, show)
    {
      camsInput := CamsText(protections.cams, show);
    }

    /** `handleCamsChange`: the field keeps the raw text, and the inventory
        emitted carries the sizes read from it. */
    method HandleCamsChange(raw: string, protections: Protections, parse: ParseReal)
      returns (updated: Protections)
      modifies this
      ensures camsInput == raw
      ensures updated == protections.(cams := CamValues(SplitWs(raw), parse, true))
    {
      camsInput := raw;
      var cams := CamValues(SplitWs(raw), parse, true);
      var spread := protections.(cams := cams);
      updated := NewProtections(Some(spread.AsPatch()));
      Rebuild(spread);
    }

    /** `handleCamsBlur`: the field is rewritten in its cleaned form; nothing
        is emitted. */
    method HandleCamsBlur(parse: ParseReal, show: real -> string)
      modifies this
      ensures camsInput == BlurText(old(camsInput), parse, show)
    {
      camsInput := BlurText(camsInput, parse, show);
    }
  }
}
