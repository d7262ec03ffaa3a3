/** The journey editor page: whether it creates or updates, which journey it
    shows, when it may ask for a forecast, and the generic handlers that
    write form fields named by dotted paths or comma-separated lists.

    The form data is a plain JavaScript object, modelled as `Fields`, a map
    from property names to `Json` values. */
module EditJourney {
  import opened Wrappers
  import opened Strings
  import opened Dates
  import opened JourneyModel
  import opened JourneyAdapter

  // ---------------------------------------------------------------------
  // Create or update

  /** `isNewJourney = !id`: no route parameter, or an empty one. */
  predicate IsNewJourney(id: Option<string>)
    ensures !IsNewJourney(id) <==> id.Some? && |id.value| >= 1
  {
    id.None? || id.value == ""
  }

  datatype SubmitAction = CreateJourney | UpdateJourney(id: string)

  /** The choice made on submit.  The update payload is `{ id, ...formData }`,
      so the form's own `id` property, which every journey has, is the one
      that is sent. */
  function SubmitChoice(routeId: Option<string>, formId: string): (action: SubmitAction)
    ensures action.CreateJourney? <==> IsNewJourney(routeId)
    ensures action.UpdateJourney? ==> action.id == formId
  {
    if IsNewJourney(routeId) then CreateJourney else UpdateJourney(formId)
  }

  /** Once the loaded journey is in the form, the update goes to the journey
      named in the route. */
  lemma UpdateTargetsRouteJourney(routeId: string, formId: string)
    requires routeId != "" && formId == routeId
    ensures SubmitChoice(Some(routeId), formId) == UpdateJourney(routeId)
  {
  }

  // ---------------------------------------------------------------------
  // The form's initial state

  /** What `new Journey(data)` gives: a journey, or the `TypeError` thrown by
      reading `data.id` when `data` is undefined. */
  datatype Construction = Built(journey: Journey) | ConstructorTypeError

  /** `new Journey(data)`, where `data` may be undefined. */
  function ConstructJourney(data: Option<JourneyInput>, now: int, decode: string -> int): (c: Construction)
    ensures c.ConstructorTypeError? <==> data.None?
    ensures c.Built? ==> Normalised(c.journey) && c.journey.id == data.value.id.GetOr("")
  {
    if data.None? then ConstructorTypeError else Built(NewJourney(data.value, now, decode))
  }

  /** The form's initial state as written: `new Journey()`, with no
      argument.  It throws on every render, whatever the route and the
      clock. */
  function InitialFormDataAsWritten(now: int, decode: string -> int): (c: Construction)
    ensures c == ConstructorTypeError
  {
    ConstructJourney(None, now, decode)
  }

  /** The initial state as evidently meant: `new Journey({})`, the empty
      journey dated now, which the constructor builds without throwing. */
  function InitialFormData(now: int, decode: string -> int): (j: Journey)
    ensures ConstructJourney(Some(NoInput), now, decode) == Built(j)
    ensures j.id == "" && j.title == "" && j.members == [] && j.pictures == []
    ensures j.date == now && j.season == Summer
    ensures Normalised(j)
  {
    NewJourney(NoInput, now, decode)
  }

  // ---------------------------------------------------------------------
  // The journey shown

  /** What the selector gives: a journey, none, or the `TypeError` thrown by
      reading `date` on null. */
  datatype Selection = Selection(journey: Option<Journey>) | TypeError

  /** The selector as written: with an id it always calls `fromJSON` on the
      store's current journey, which is null until the journey is loaded. */
  function SelectJourneyAsWritten(id: Option<string>, current: Option<Journey>, now: int, decode: string -> int)
    : (s: Selection)
    ensures IsNewJourney(id) ==> s == Selection(None)
    ensures !IsNewJourney(id) && current.None? ==> s == TypeError
  {
    if IsNewJourney(id) then Selection(None)
    else if current.None? then TypeError
    else Selection(Some(FromJson(AsInput(current.value.WithDate(Instant(current.value.date))), now, decode)))
  }

  /** Opening the editor on a journey that is not loaded yet throws. */
  lemma SelectorThrowsBeforeLoad(id: string, now: int, decode: string -> int)
    requires id != ""
    ensures SelectJourneyAsWritten(Some(id), None, now, decode) == TypeError
  {
  }

  /** The selector with the null check it needs: a journey only when there
      is an id and a loaded journey, and then the loaded journey itself. */
  function SelectJourney(id: Option<string>, current: Option<Journey>, now: int, decode: string -> int)
    : (j: Option<Journey>)
    ensures j.Some? <==> !IsNewJourney(id) && current.Some?
    ensures j.Some? ==> Normalised(j.value)
    ensures j.Some? && Normalised(current.value) ==> j.value == current.value
    ensures SelectJourneyAsWritten(id, current, now, decode) != TypeError ==>
      SelectJourneyAsWritten(id, current, now, decode) == Selection(j)
  {
    if IsNewJourney(id) || current.None? then None
    else
      var c := current.value;
      if Normalised(c) then NewJourneyIdempotent(c, now, decode); Some(FromJson(AsInput(c.WithDate(Instant(c.date))), now, decode))
      else Some(FromJson(AsInput(c.WithDate(Instant(c.date))), now, decode))
  }

  // ---------------------------------------------------------------------
  // The forecast button

  /** `canRequestMeteo`: a date is set and lies at most one week ahead, in
      milliseconds; past dates are not excluded. */
  function CanRequestMeteo(date: Option<DateField>, now: int, decode: string -> int): (allowed: bool)
    ensures !Truthy(date) ==> !allowed
    ensures Truthy(date) ==> (allowed <==> ToMs(date.value, decode) <= now + WeekMs)
  {
    if !Truthy(date) then false
    else ToMs(date.value, decode) - now <= WeekMs
  }

  /** A journey in the past may still ask for a forecast. */
  lemma PastDatesMayRequest(date: int, now: int, decode: string -> int)
    requires date < now
    ensures CanRequestMeteo(Some(Instant(date)), now, decode)
  {
  }

  // ---------------------------------------------------------------------
  // Form data as JavaScript values

  datatype Json =
    | Undefined
    | Null
    | Bool(b: bool)
    | Num(n: real)
    | Str(s: string)
    | Arr(items: seq<Json>)
    | Obj(fields: map<string, Json>)

  type Fields = map<string, Json>

  /** JavaScript truthiness. */
  predicate IsTruthy(v: Json) {
    match v
    case Undefined => false
    case Null => false
    case Bool(b) => b
    case Num(n) => n != 0.0
    case Str(s) => s != ""
    case Arr(_) => true
    case Obj(_) => true
  }

  /** The number a string of decimal digits spells. */
  function DigitsValue(s: string): int
    decreases |s|
  {
    if s == [] then 0 else DigitsValue(s[..|s| - 1]) * 10 + (s[|s| - 1] as int - '0' as int)
  }

  /** The decimal spelling of an index, as used for array and string keys;
      reading the digits back gives the index, so different indices are
      different keys. */
  function DecimalString(n: nat): (s: string)
    ensures |s| >= 1
    ensures DigitsValue(s) == n
    decreases n
  {
    if n < 10 then
      assert ["0123456789"[n]][..0] == [];
      ["0123456789"[n]]
    else
      var s := DecimalString(n / 10) + ["0123456789"[n % 10]];
      assert s[..|s| - 1] == DecimalString(n / 10);
      s
  }

  /** The keys of the first `n` indices. */
  ghost function IndexKeys(n: nat): set<string> {
    set i | 0 <= i < n :: DecimalString(i)
  }

  lemma IndexKeysStep(n: nat)
    ensures IndexKeys(n + 1) == IndexKeys(n) + {DecimalString(n)}
  {
    forall k | k in IndexKeys(n + 1)
      ensures k in IndexKeys(n) + {DecimalString(n)}
    {
      var i :| 0 <= i < n + 1 && k == DecimalString(i);
      if i < n { assert k in IndexKeys(n); }
    }
  }

  /** The own properties of an array-like value: exactly its indices, each
      holding the element at that index. */
  function Indexed(items: seq<Json>): (m: Fields)
    ensures m.Keys == IndexKeys(|items|)
    ensures forall i :: 0 <= i < |items| ==> m[DecimalString(i)] == items[i]
    decreases |items|
  {
    if items == [] then map[]
    else
      var n := |items| - 1;
      var prev := Indexed(items[..n]);
      var m := prev[DecimalString(n) := items[n]];
      assert prev.Keys == IndexKeys(n);
      IndexKeysStep(n);
      m
  }

  /** `{ ...v }`: an object's own properties, an array's or a string's
      indexed elements, and nothing for the other values. */
  function Spread(v: Json): Fields {
    match v
    case Obj(m) => m
    case Arr(items) => Indexed(items)
    case Str(s) => Indexed(seq(|s|, i requires 0 <= i < |s| => Str([s[i]])))
    case _ => map[]
  }

  /** The copy made for one step down the path:
      `if (!temp[part]) temp[part] = {}; temp[part] = { ...temp[part] }`. */
  function Child(m: Fields, key: string): Fields {
    if key in m && IsTruthy(m[key]) then Spread(m[key]) else map[]
  }

  /** The value at a path of object properties, `undefined` when the path
      leaves the objects. */
  function GetPath(m: Fields, path: seq<string>): Json
    requires |path| >= 1
    decreases |path|
  {
    if path[0] !in m then Undefined
    else if |path| == 1 then m[path[0]]
    else if m[path[0]].Obj? then GetPath(m[path[0]].fields, path[1..])
    else Undefined
  }

  /** Every property along `path` holds an object. */
  predicate ObjectsAlong(m: Fields, path: seq<string>)
    decreases |path|
  {
    path == [] || (path[0] in m && m[path[0]].Obj? && ObjectsAlong(m[path[0]].fields, path[1..]))
  }

  // ---------------------------------------------------------------------
  // The dotted-path setter

  /** The form data after writing `v` at `path`: the first key gets the
      value (a one-part path) or a copy of its old contents with the rest of
      the path written into it, a missing or falsy one starting from `{}`.
      No other key at this level changes. */
  function SetPath(m: Fields, path: seq<string>, v: Json): (r: Fields)
    requires |path| >= 1
    ensures r.Keys == m.Keys + {path[0]}
    ensures forall k :: k in m && k != path[0] ==> r[k] == m[k]
    decreases |path|
  {
    if |path| == 1 then m[path[0] := v]
    else m[path[0] := Obj(SetPath(Child(m, path[0]), path[1..], v))]
  }

  /** What was written can be read back at the same path. */
  lemma {:induction false} SetPathReadBack(m: Fields, path: seq<string>, v: Json)
    requires |path| >= 1
    ensures GetPath(SetPath(m, path, v), path) == v
    decreases |path|
  {
    if |path| > 1 {
      SetPathReadBack(Child(m, path[0]), path[1..], v);
    }
  }

  /** Any other path that leaves `path` at some level, below objects that
      were already there, reads the same before and after. */
  lemma {:induction false} SetPathElsewhere(m: Fields, path: seq<string>, v: Json, other: seq<string>, level: nat)
    requires |path| >= 1 && level < |path| && level < |other|
    requires other[..level] == path[..level] && other[level] != path[level]
    requires ObjectsAlong(m, path[..level])
    ensures GetPath(SetPath(m, path, v), other) == GetPath(m, other)
    decreases level
  {
    if level > 0 {
      assert other[0] == path[0] by {
        assert other[..level][0] == path[..level][0];
      }
      var f := m[path[0]].fields;
      assert Child(m, path[0]) == f;
      assert path[..level][1..] == path[1..][..level - 1];
      assert other[1..][..level - 1] == path[1..][..level - 1] by {
        assert other[..level][1..] == path[..level][1..];
      }
      SetPathElsewhere(f, path[1..], v, other[1..], level - 1);
    }
  }

  /** A missing or falsy intermediate property is replaced by a new object
      holding only the rest of the path. */
  lemma SetPathCreatesMissing(m: Fields, path: seq<string>, v: Json)
    requires |path| >= 2
    requires path[0] !in m || !IsTruthy(m[path[0]])
    ensures SetPath(m, path, v)[path[0]] == Obj(SetPath(map[], path[1..], v))
  {
  }

  /** `handleNestedInputChange`.  The name is split on '.'.  A one-part name
      sets that property of a copy of the form data.  Otherwise the loop
      walks down the path, making at each level a copy of the next object
      (or `{}`) and storing it in the copy above; the last copy receives the
      value.  Each copy is stored by reference before it is changed, so the
      copy above ends up holding the changed one: the second loop rebuilds
      exactly that, from the bottom up. */
  method HandleNestedInputChange(prev: Fields, name: string, value: string) returns (next: Fields)
    ensures next == SetPath(prev, SplitOn(name, '.'), Str(value))
  {
    var parts := SplitOn(name, '.');
    if |parts| == 1 {
      JoinSplitOn(name, '.');
      next := prev[name := Str(value)];
    } else {
      // copies[i] is `temp` after i steps; copies[0] is `current`
      var copies: seq<Fields> := [prev];
      var i := 0;
      while i < |parts| - 1
        invariant 0 <= i <= |parts| - 1
        invariant |copies| == i + 1 && copies[0] == prev
        invariant forall k :: 0 < k <= i ==> copies[k] == Child(copies[k - 1], parts[k - 1])
      {
        copies := copies + [Child(copies[i], parts[i])];
        i := i + 1;
      }
      var node := copies[i][parts[i] := Str(value)];
      assert parts[i..] == [parts[i]];
      var j := i;
      while j > 0
        invariant 0 <= j <= i
        invariant node == SetPath(copies[j], parts[j..], Str(value))
      {
        j := j - 1;
        assert parts[j..][0] == parts[j] && parts[j..][1..] == parts[j + 1..];
        node := copies[j][parts[j] := Obj(node)];
      }
      next := node;
    }
  }

  /** `handleSelectChange`: the same code as `handleNestedInputChange`, for
      the select boxes, hence the same update. */
  method HandleSelectChange(prev: Fields, name: string, value: string) returns (next: Fields)
    ensures next == SetPath(prev, SplitOn(name, '.'), Str(value))
  {
    next := HandleNestedInputChange(prev, name, value);
  }

  /** A name of two dot-free parts splits into those parts. */
  lemma SplitTwo(a: string, b: string)
    requires '.' !in a && '.' !in b
    ensures SplitOn(a + "." + b, '.') == [a, b]
  {
    assert a + "." + b == a + ['.'] + b;
    SplitOnCons(a, '.', b);
    SplitOnNoSep(b, '.');
  }

  /** A name of three dot-free parts splits into those parts. */
  lemma SplitThree(a: string, b: string, c: string)
    requires '.' !in a && '.' !in b && '.' !in c
    ensures SplitOn(a + "." + b + "." + c, '.') == [a, b, c]
  {
    assert a + "." + b + "." + c == a + ['.'] + (b + "." + c);
    SplitOnCons(a, '.', b + "." + c);
    SplitTwo(b, c);
  }

  /** Writing a three-part path below an existing object: the middle part
      becomes a new object holding only the leaf, and the object's other
      properties are kept. */
  lemma SetPathBelowObject(form: Fields, a: string, b: string, c: string, v: Json)
    requires a in form && form[a].Obj? && b !in form[a].fields
    ensures var next := SetPath(form, [a, b, c], v);
      && next[a].Obj?
      && next[a].fields.Keys == form[a].fields.Keys + {b}
      && next[a].fields[b] == Obj(map[c := v])
      && forall k :: k in form[a].fields ==> next[a].fields[k] == form[a].fields[k]
  {
    assert [a, b, c][1..] == [b, c];
    assert [b, c][1..] == [c];
    assert Child(form, a) == form[a].fields;
    assert Child(form[a].fields, b) == map[];
    assert SetPath(map[], [c], v) == map[c := v];
  }

  /** What a rope input displays: `formData.protections?.ropes?.[0]?.[field]`,
      `undefined` wherever the chain breaks. */
  function FirstRopeField(form: Fields, field: string): Json {
    if "protections" in form && form["protections"].Obj?
       && "ropes" in form["protections"].fields && form["protections"].fields["ropes"].Arr?
    then
      var ropes := form["protections"].fields["ropes"].items;
      if |ropes| > 0 && ropes[0].Obj? && field in ropes[0].fields then ropes[0].fields[field] else Undefined
    else Undefined
  }

  /** The rope inputs show the same value in two forms whose `protections`
      objects agree on `ropes`. */
  lemma FirstRopeFieldFromRopes(form: Fields, next: Fields, field: string)
    requires "protections" in form && form["protections"].Obj?
    requires "protections" in next && next["protections"].Obj?
    requires "ropes" in next["protections"].fields <==> "ropes" in form["protections"].fields
    requires "ropes" in form["protections"].fields ==>
      next["protections"].fields["ropes"] == form["protections"].fields["ropes"]
    ensures FirstRopeField(next, field) == FirstRopeField(form, field)
  {
  }

  /** Paths are split only on '.': the rope inputs, named
      "protections.ropes[0].diameter", write a property literally called
      "ropes[0]" inside `protections` and leave the rope list alone, so the
      input goes on showing the old diameter whatever is typed. */
  lemma RopeIndexIsLiteralKey(form: Fields, name: string, value: string)
    requires name == "protections.ropes[0].diameter"
    requires "protections" in form && form["protections"].Obj?
    requires "ropes[0]" !in form["protections"].fields
    ensures var next := SetPath(form, SplitOn(name, '.'), Str(value));
      && next["protections"].Obj?
      && "ropes[0]" in next["protections"].fields
      && next["protections"].fields["ropes[0]"] == Obj(map["diameter" := Str(value)])
      && (forall k :: k in form["protections"].fields ==> next["protections"].fields[k] == form["protections"].fields[k])
      && FirstRopeField(next, "diameter") == FirstRopeField(form, "diameter")
  {
    assert name == "protections" + "." + "ropes[0]" + "." + "diameter";
    SplitThree("protections", "ropes[0]", "diameter");
    SetPathBelowObject(form, "protections", "ropes[0]", "diameter", Str(value));
    assert |"ropes"| != |"ropes[0]"|;
    FirstRopeFieldFromRopes(form, SetPath(form, SplitOn(name, '.'), Str(value)), "diameter");
  }

  /** The rope inputs' write as evidently meant: the field of the first rope
      in `protections.ropes`, creating the object, the list or the rope when
      missing, and keeping every other property, rope and rope field. */
  function SetFirstRopeField(form: Fields, field: string, v: Json): (r: Fields)
    ensures FirstRopeField(r, field) == v
    ensures r.Keys == form.Keys + {"protections"}
    ensures forall k :: k in form && k != "protections" ==> r[k] == form[k]
    ensures r["protections"].Obj? && "ropes" in r["protections"].fields
    ensures r["protections"].fields["ropes"].Arr? && |r["protections"].fields["ropes"].items| >= 1
    ensures r["protections"].fields["ropes"].items[0].Obj?
    ensures var prot := Child(form, "protections");
      forall k :: k in prot && k != "ropes" ==> k in r["protections"].fields && r["protections"].fields[k] == prot[k]
    ensures var prot := Child(form, "protections");
      "ropes" in prot && prot["ropes"].Arr? && |prot["ropes"].items| > 0 ==>
        var before := prot["ropes"].items;
        var after := r["protections"].fields["ropes"].items;
        && |after| == |before|
        && (forall i :: 1 <= i < |before| ==> after[i] == before[i])
        && (before[0].Obj? ==> forall k :: k in before[0].fields && k != field ==>
              k in after[0].fields && after[0].fields[k] == before[0].fields[k])
  {
    var prot := Child(form, "protections");
    var ropes := if "ropes" in prot && prot["ropes"].Arr? then prot["ropes"].items else [];
    var first := if |ropes| > 0 && ropes[0].Obj? then ropes[0].fields else map[];
    var newRopes := if |ropes| > 0 then ropes[0 := Obj(first[field := v])] else [Obj(map[field := v])];
    form["protections" := Obj(prot["ropes" := Arr(newRopes)])]
  }

  // ---------------------------------------------------------------------
  // Comma-separated lists

  /** `value.split(',').map(item => item.trim())`. */
  function ListItems(value: string): (items: seq<string>)
    ensures |items| == Count(value, ',') + 1
    ensures forall i :: 0 <= i < |items| ==> items[i] == Trim(SplitOn(value, ',')[i])
  {
    var pieces := SplitOn(value, ',');
    seq(|pieces|, i requires 0 <= i < |pieces| => Trim(pieces[i]))
  }

  function Strs(items: seq<string>): (values: seq<Json>)
    ensures |values| == |items|
    ensures forall i :: 0 <= i < |items| ==> values[i] == Str(items[i])
  {
    seq(|items|, i requires 0 <= i < |items| => Str(items[i]))
  }

  /** `handleArrayChange(name, value)`: the property called `name`, taken
      whole even when it contains a dot, becomes the trimmed comma-separated
      items, one more than there are commas; nothing else changes. */
  function HandleArrayChange(prev: Fields, name: string, value: string): (next: Fields)
    ensures next.Keys == prev.Keys + {name}
    ensures forall k :: k in prev && k != name ==> next[k] == prev[k]
    ensures next[name].Arr? && |next[name].items| == Count(value, ',') + 1
    ensures forall i :: 0 <= i < |next[name].items| ==>
      next[name].items[i] == Str(Trim(SplitOn(value, ',')[i]))
  {
    prev[name := Arr(Strs(ListItems(value)))]
  }

  /** Splitting a ", "-joined list on ',' gives the first item and then
      every other item behind one space. */
  lemma {:induction false} SplitCommaJoin(items: seq<string>)
    requires |items| >= 1
    requires forall i :: 0 <= i < |items| ==> ',' !in items[i]
    ensures var pieces := SplitOn(Join(items, ", "), ',');
      && |pieces| == |items| && pieces[0] == items[0]
      && forall i :: 1 <= i < |items| ==> pieces[i] == " " + items[i]
    decreases |items|
  {
    if |items| == 1 {
      SplitOnNoSep(items[0], ',');
    } else {
      var rest := items[1..];
      SplitCommaJoin(rest);
      var tail := Join(rest, ", ");
      JoinCons(items[0], rest, ", ");
      assert [items[0]] + rest == items;
      assert Join(items, ", ") == items[0] + [','] + (" " + tail);
      SplitOnCons(items[0], ',', " " + tail);
      assert (" " + tail)[1..] == tail;
      var tailPieces := SplitOn(tail, ',');
      assert SplitOn(" " + tail, ',') == [" " + tailPieces[0]] + tailPieces[1..];
    }
  }

  /** The members field shows the list joined with ", "; typing that text
      back gives the same list, provided no member contains a comma or
      starts or ends with white space. */
  lemma MembersTextRoundTrip(prev: Fields, members: seq<string>)
    requires |members| >= 1
    requires forall i :: 0 <= i < |members| ==> ',' !in members[i] && Trimmed(members[i])
    ensures HandleArrayChange(prev, "members", Join(members, ", "))["members"] == Arr(Strs(members))
  {
    var text := Join(members, ", ");
    var pieces := SplitOn(text, ',');
    SplitCommaJoin(members);
    var items := ListItems(text);
    assert |items| == |pieces| == |members|;
    forall i | 0 <= i < |members|
      ensures items[i] == members[i]
    {
      TrimTrimmed(members[i]);
      assert items[i] == Trim(pieces[i]);
      if i == 0 {
        assert pieces[i] == members[i];
      } else {
        assert pieces[i] == " " + members[i];
      }
    }
    assert items == members;
  }

  /** An empty members field gives one empty member, not an empty list. */
  lemma EmptyTextGivesOneItem(prev: Fields, name: string)
    ensures HandleArrayChange(prev, name, "")[name] == Arr([Str("")])
  {
    assert Trim("") == "";
  }

  /** As written, the cam sizes are handed over under the name
      "protections.cams": they land in a new top-level property of that name,
      and `protections` keeps its old cams. */
  lemma CamsWrittenToDottedKey(form: Fields, value: string)
    requires "protections" in form
    ensures var next := HandleArrayChange(form, "protections.cams", value);
      && next["protections"] == form["protections"]
      && "protections.cams" in next
  {
  }

  /** The list handler with the name read as a path, as the cam input
      evidently expects. */
  function HandleArrayChangeAtPath(prev: Fields, name: string, value: string): (next: Fields)
    ensures GetPath(next, SplitOn(name, '.')) == Arr(Strs(ListItems(value)))
  {
    SetPathReadBack(prev, SplitOn(name, '.'), Arr(Strs(ListItems(value))));
    SetPath(prev, SplitOn(name, '.'), Arr(Strs(ListItems(value))))
  }

  /** With the path read, the cams end up inside `protections`, whose
      other properties are kept. */
  lemma CamsWrittenAtPath(form: Fields, name: string, value: string, other: string)
    requires name == "protections.cams"
    requires "protections" in form && form["protections"].Obj?
    requires other != "cams"
    ensures var next := HandleArrayChangeAtPath(form, name, value);
      && GetPath(next, ["protections", "cams"]) == Arr(Strs(ListItems(value)))
      && GetPath(next, ["protections", other]) == GetPath(form, ["protections", other])
  {
    assert name == "protections" + "." + "cams";
    SplitTwo("protections", "cams");
    var path := ["protections", "cams"];
    var v := Arr(Strs(ListItems(value)));
    assert path[..1] == ["protections"[..]];
    assert ["protections", other][..1] == ["protections"[..]];
    SetPathElsewhere(form, path, v, ["protections", other], 1);
  }

  /** For a name without a dot, reading it as a path changes nothing: the
      corrected handler is the one as written. */
  lemma AtPathAgreesWithoutDot(form: Fields, name: string, value: string)
    requires '.' !in name
    ensures HandleArrayChangeAtPath(form, name, value) == HandleArrayChange(form, name, value)
  {
    SplitOnNoSep(name, '.');
  }
}
