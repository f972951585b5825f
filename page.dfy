// The converter page: its form state and the handlers that change it. The
// `useState` hooks become fields of one object, every handler a method, and
// the 800 ms timer started by a successful convert a separate step,
// Complete, that runs on the values the timer's closure captured.

module Page {
  import Text
  import Conversion

  datatype Option<T> = None | Some(value: T)

  datatype Direction = NetherToOverworld | OverworldToNether

  /** The other direction; the toggle has only two poles, so flipping twice
      gives back the original. */
  function Flip(d: Direction): (r: Direction)
    ensures r != d
  {
    if d == NetherToOverworld then OverworldToNether else NetherToOverworld
  }

  lemma FlipInvolutive(d: Direction)
    ensures Flip(Flip(d)) == d
  {
  }

  /** The two coordinate sets, and the prefixes of their error keys. */
  datatype Dimension = Nether | Overworld

  /** The triple a direction reads, and the prefix it validates it under. */
  function Source(d: Direction): Dimension {
    if d == NetherToOverworld then Nether else Overworld
  }

  datatype Axis = X | Y | Z

  /** One coordinate triple as the user typed it. */
  datatype Coordinates = Coordinates(x: string, y: string, z: string) {
    function Field(a: Axis): string {
      match a
      case X => x
      case Y => y
      case Z => z
    }

    /** `{ ...prev, [field]: value }`: the named field replaced, the others kept. */
    function With(a: Axis, v: string): (c: Coordinates)
      ensures c.Field(a) == v
      ensures forall b :: b != a ==> c.Field(b) == Field(b)
    {
      match a
      case X => this.(x := v)
      case Y => this.(y := v)
      case Z => this.(z := v)
    }
  }

  const Empty := Coordinates("", "", "")

  /** A key of the validation-error dictionary, such as "nether-x". The page
      only ever stores `true` under a key, so the dictionary is the set of
      keys present. */
  datatype FieldKey = FieldKey(dimension: Dimension, axis: Axis)

  function PrefixName(d: Dimension): string {
    if d == Nether then "nether" else "overworld"
  }

  function AxisName(a: Axis): string {
    match a
    case X => "x"
    case Y => "y"
    case Z => "z"
  }

  /** The key's text, `${prefix}-${axis}`. */
  function KeyName(k: FieldKey): string {
    PrefixName(k.dimension) + "-" + AxisName(k.axis)
  }

  /** Distinct keys have distinct texts, so a set of FieldKey values stands for
      the page's string-keyed dictionary without merging any two entries. */
  lemma KeyNameInjective(k: FieldKey, k': FieldKey)
    ensures KeyName(k) == KeyName(k') ==> k == k'
  {
    if KeyName(k) == KeyName(k') {
      var s := KeyName(k);
      assert |s| == |PrefixName(k.dimension)| + 2 == |PrefixName(k'.dimension)| + 2;
      assert s[|s| - 1] == AxisName(k.axis)[0] == AxisName(k'.axis)[0];
    }
  }

  /** `!text.trim()`: the field counts as missing when its trimmed text is empty. */
  predicate Missing(s: string) {
    Text.Trim(s) == []
  }

  /** The keys validateInputs(coords, prefix) flags: `prefix-axis` for each axis
      whose text is missing, and nothing else; none exactly when all three
      fields are present. */
  function FailingKeys(c: Coordinates, d: Dimension): (r: set<FieldKey>)
    ensures forall k :: k in r <==> k.dimension == d && Missing(c.Field(k.axis))
    ensures r == {} <==> !Missing(c.x) && !Missing(c.y) && !Missing(c.z)
  {
    (if Missing(c.x) then {FieldKey(d, X)} else {})
    + (if Missing(c.y) then {FieldKey(d, Y)} else {})
    + (if Missing(c.z) then {FieldKey(d, Z)} else {})
  }

  /** A field is missing exactly when all of its characters are whitespace. */
  lemma MissingIffBlank(s: string)
    ensures Missing(s) <==> Text.Blank(s)
  {
    Text.TrimSpec(s);
  }

  /** What `Number(...)` followed by the arithmetic gives on one axis. */
  datatype Reading = Reading(x: Text.Number, y: Text.Number, z: Text.Number)

  function Apply(f: int -> int, n: Text.Number): Text.Number {
    match n
    case Int(v) => Text.Int(f(v))
    case Untracked => Text.Untracked
  }

  /** convertNetherToOverworld on the typed text: each field through Number(),
      x and z scaled up, y passed through. */
  function ConvertNetherToOverworld(c: Coordinates): (r: Reading)
    ensures forall vx, vy, vz ::
      Text.ToNumber(c.x) == Text.Int(vx) && Text.ToNumber(c.y) == Text.Int(vy) && Text.ToNumber(c.z) == Text.Int(vz)
      ==> var q := Conversion.NetherToOverworld(Conversion.Point(vx, vy, vz));
          r == Reading(Text.Int(q.x), Text.Int(q.y), Text.Int(q.z))
  {
    Reading(Apply(Conversion.ScaleUp, Text.ToNumber(c.x)), Text.ToNumber(c.y), Apply(Conversion.ScaleUp, Text.ToNumber(c.z)))
  }

  /** convertOverworldToNether on the typed text: each field through Number(),
      x and z floor-divided, y passed through. */
  function ConvertOverworldToNether(c: Coordinates): (r: Reading)
    ensures forall vx, vy, vz ::
      Text.ToNumber(c.x) == Text.Int(vx) && Text.ToNumber(c.y) == Text.Int(vy) && Text.ToNumber(c.z) == Text.Int(vz)
      ==> var q := Conversion.OverworldToNether(Conversion.Point(vx, vy, vz));
          r == Reading(Text.Int(q.x), Text.Int(q.y), Text.Int(q.z))
  {
    Reading(Apply(Conversion.ScaleDown, Text.ToNumber(c.x)), Text.ToNumber(c.y), Apply(Conversion.ScaleDown, Text.ToNumber(c.z)))
  }

  /** The string getConversionResult builds, kept structured: the source set's
      name and typed text, then the converted values. "Nether (a, b, c) →
      Overworld (x, y, z)" is Summary(Nether, Coordinates(a, b, c), reading). */
  datatype Summary = Summary(source: Dimension, typed: Coordinates, converted: Reading)

  /** The text placed in `result` by the template `${getConversionResult(...)}`:
      the summary, or the literal "undefined" when there was none. */
  datatype Shown = Shows(summary: Summary) | UndefinedText

  function Template(r: Option<Summary>): Shown {
    match r
    case None => UndefinedText
    case Some(summary) => Shows(summary)
  }

  /** The values captured by the timer's closure when convert was pressed. */
  datatype Snapshot = Snapshot(direction: Direction, nether: Coordinates, overworld: Coordinates)

  function ActiveCoords(s: Snapshot): Coordinates {
    if s.direction == NetherToOverworld then s.nether else s.overworld
  }

  /** What getConversionResult(netherParam, overworldParam) returns, under the
      captured direction: the active parameter re-validated, then converted. */
  function ConversionResult(d: Direction, netherParam: Coordinates, overworldParam: Coordinates): (r: Option<Summary>)
    ensures var read := if d == NetherToOverworld then netherParam else overworldParam;
      && (r == None <==> FailingKeys(read, Source(d)) != {})
      && (r.Some? ==> r.value.source == Source(d) && r.value.typed == read)
      && (r.Some? ==> r.value.converted == (if d == NetherToOverworld then ConvertNetherToOverworld(read) else ConvertOverworldToNether(read)))
  {
    if d == NetherToOverworld && FailingKeys(netherParam, Nether) != {} then None
    else if d == OverworldToNether && FailingKeys(overworldParam, Overworld) != {} then None
    else if d == NetherToOverworld then Some(Summary(Nether, netherParam, ConvertNetherToOverworld(netherParam)))
    else Some(Summary(Overworld, overworldParam, ConvertOverworldToNether(overworldParam)))
  }

  /** getConversionResult reads only the parameter that matches the captured
      direction: replacing the other one changes neither the result nor the
      keys it flags. */
  lemma ConversionIgnoresInactive(d: Direction, netherParam: Coordinates, overworldParam: Coordinates, other: Coordinates)
    ensures d == NetherToOverworld ==>
      ConversionResult(d, netherParam, other) == ConversionResult(d, netherParam, overworldParam)
      && ConversionErrors(d, netherParam, other) == ConversionErrors(d, netherParam, overworldParam)
    ensures d == OverworldToNether ==>
      ConversionResult(d, other, overworldParam) == ConversionResult(d, netherParam, overworldParam)
      && ConversionErrors(d, other, overworldParam) == ConversionErrors(d, netherParam, overworldParam)
  {
  }

  /** The keys getConversionResult's one validateInputs call merges in. */
  function ConversionErrors(d: Direction, netherParam: Coordinates, overworldParam: Coordinates): set<FieldKey> {
    if d == NetherToOverworld then FailingKeys(netherParam, Nether) else FailingKeys(overworldParam, Overworld)
  }

  /** The arguments the timer passes to getConversionResult: in the
      overworld-to-nether branch they come in the opposite order to the
      parameters (netherCoords, overworldCoords). */
  function TimerArguments(s: Snapshot): (Coordinates, Coordinates) {
    if s.direction == NetherToOverworld then (s.nether, s.overworld) else (s.overworld, s.nether)
  }

  /** The value the timer stores in `result`. In both directions it is the
      Nether snapshot that lands in the parameter read: the result is
      "undefined" exactly when the Nether triple fails validation under the
      direction's prefix, and otherwise summarises the Nether text. */
  function CompletionResult(s: Snapshot): (r: Shown)
    ensures r == UndefinedText <==> FailingKeys(s.nether, Source(s.direction)) != {}
    ensures r.Shows? ==> r.summary.source == Source(s.direction) && r.summary.typed == s.nether
  {
    var (first, second) := TimerArguments(s);
    Template(ConversionResult(s.direction, first, second))
  }

  /** The keys the timer's re-validation merges into the error set: in both
      directions, the Nether triple's failing keys under the direction's prefix. */
  function CompletionErrors(s: Snapshot): (r: set<FieldKey>)
    ensures r == FailingKeys(s.nether, Source(s.direction))
  {
    var (first, second) := TimerArguments(s);
    ConversionErrors(s.direction, first, second)
  }

  /** Nether to Overworld: a snapshot that passed validation is converted from
      the Nether triple and nothing is flagged. */
  lemma CompletionNetherToOverworld(s: Snapshot)
    requires s.direction == NetherToOverworld && FailingKeys(s.nether, Nether) == {}
    ensures CompletionResult(s) == Shows(Summary(Nether, s.nether, ConvertNetherToOverworld(s.nether)))
    ensures CompletionErrors(s) == {}
  {
  }

  /** Overworld to Nether, as the page is written: it is the NETHER triple that
      is re-validated, under the "overworld" prefix, and converted; when one of
      its fields is missing the result is "undefined". The Overworld triple the
      user filled in plays no part. */
  lemma CompletionOverworldToNether(s: Snapshot)
    requires s.direction == OverworldToNether
    ensures CompletionErrors(s) == FailingKeys(s.nether, Overworld)
    ensures CompletionResult(s) == UndefinedText <==> FailingKeys(s.nether, Overworld) != {}
    ensures FailingKeys(s.nether, Overworld) == {} ==>
      CompletionResult(s) == Shows(Summary(Overworld, s.nether, ConvertOverworldToNether(s.nether)))
    ensures forall o :: CompletionResult(s.(overworld := o)) == CompletionResult(s)
                     && CompletionErrors(s.(overworld := o)) == CompletionErrors(s)
  {
  }

  /** What the timer evidently should store: the triple that was validated,
      converted in the captured direction. */
  function IntendedCompletionResult(s: Snapshot): (r: Shown)
    ensures r == UndefinedText <==> FailingKeys(ActiveCoords(s), Source(s.direction)) != {}
    ensures r.Shows? ==> r.summary.source == Source(s.direction) && r.summary.typed == ActiveCoords(s)
  {
    Template(ConversionResult(s.direction, s.nether, s.overworld))
  }

  /** With the arguments in parameter order, a snapshot that passed validation
      always yields a summary of its active triple, never "undefined". */
  lemma IntendedCompletionConverts(s: Snapshot)
    requires FailingKeys(ActiveCoords(s), Source(s.direction)) == {}
    ensures IntendedCompletionResult(s) == Shows(Summary(Source(s.direction), ActiveCoords(s),
      if s.direction == NetherToOverworld then ConvertNetherToOverworld(s.nether) else ConvertOverworldToNether(s.overworld)))
  {
  }

  /** The form's state: the six `useState` hooks, plus the timer callback that
      is scheduled but has not yet run. */
  class Form {
    var direction: Direction
    var netherCoords: Coordinates
    var overworldCoords: Coordinates
    var result: Option<Shown>
    var isLoading: bool
    var validationErrors: set<FieldKey>
    var pending: Option<Snapshot>

    /** The page is loading exactly while a timer callback is pending, and that
        callback's snapshot passed validation when it was taken. Since convert
        cannot be pressed while loading, at most one callback is ever pending. */
    ghost predicate Valid()
      reads this
    {
      && (isLoading <==> pending.Some?)
      && (pending.Some? ==> FailingKeys(ActiveCoords(pending.value), Source(pending.value.direction)) == {})
    }

    function Active(): Snapshot
      reads this
    {
      Snapshot(direction, netherCoords, overworldCoords)
    }

    /** The initial state of every hook. */
    constructor ()
      ensures Valid()
      ensures direction == NetherToOverworld
      ensures netherCoords == Empty && overworldCoords == Empty
      ensures result == None && !isLoading && validationErrors == {} && pending == None
    {
      direction := NetherToOverworld;
      netherCoords := Empty;
      overworldCoords := Empty;
      result := None;
      isLoading := false;
      validationErrors := {};
      pending := None;
    }

    /** handleDirectionToggle: the direction flips, the result and every error
        flag are cleared; the coordinates, the loading flag and a pending
        timer are untouched. */
    method HandleDirectionToggle()
      requires Valid()
      modifies this
      ensures Valid()
      ensures direction == Flip(old(direction))
      ensures result == None && validationErrors == {}
      ensures netherCoords == old(netherCoords) && overworldCoords == old(overworldCoords)
      ensures isLoading == old(isLoading) && pending == old(pending)
    {
      direction := Flip(direction);
      result := None;
      validationErrors := {};
    }

    /** validateInputs: flags `prefix-axis` for every missing field, merges the
        flags into the existing set without removing any, and reports whether
        none was flagged. */
    method ValidateInputs(coords: Coordinates, prefix: Dimension) returns (isValid: bool)
      modifies this
      ensures validationErrors == old(validationErrors) + FailingKeys(coords, prefix)
      ensures isValid <==> FailingKeys(coords, prefix) == {}
      ensures direction == old(direction) && netherCoords == old(netherCoords) && overworldCoords == old(overworldCoords)
      ensures result == old(result) && isLoading == old(isLoading) && pending == old(pending)
    {
      var errors: set<FieldKey> := {};
      isValid := true;
      if Missing(coords.x) {
        errors := errors + {FieldKey(prefix, X)};
        isValid := false;
      }
      if Missing(coords.y) {
        errors := errors + {FieldKey(prefix, Y)};
        isValid := false;
      }
      if Missing(coords.z) {
        errors := errors + {FieldKey(prefix, Z)};
        isValid := false;
      }
      validationErrors := validationErrors + errors;
    }

    /** handleConvert, which the button allows only while not loading: the
        error set becomes exactly the failing keys of the active triple; if
        there are none, loading starts and one timer callback is scheduled on
        a snapshot of the current direction and both triples. */
    method HandleConvert()
      requires Valid() && !isLoading
      modifies this
      ensures Valid()
      ensures validationErrors == FailingKeys(ActiveCoords(old(Active())), Source(old(direction)))
      ensures direction == old(direction) && netherCoords == old(netherCoords) && overworldCoords == old(overworldCoords)
      ensures result == old(result)
      ensures validationErrors != {} ==> !isLoading && pending == None
      ensures validationErrors == {} ==> isLoading && pending == Some(old(Active()))
      ensures old(pending) == None
    {
      validationErrors := {};
      var isValid;
      if direction == NetherToOverworld {
        isValid := ValidateInputs(netherCoords, Nether);
      } else {
        isValid := ValidateInputs(overworldCoords, Overworld);
      }
      if !isValid {
        return;
      }
      isLoading := true;
      pending := Some(Active());
    }

    /** getConversionResult, under the direction d captured by the closure:
        re-validates the active parameter (merging its flags) and converts it;
        None stands for the `undefined` it returns on a failed validation. */
    method GetConversionResult(d: Direction, netherParam: Coordinates, overworldParam: Coordinates)
      returns (r: Option<Summary>)
      modifies this
      ensures r == ConversionResult(d, netherParam, overworldParam)
      ensures validationErrors == old(validationErrors) + ConversionErrors(d, netherParam, overworldParam)
      ensures direction == old(direction) && netherCoords == old(netherCoords) && overworldCoords == old(overworldCoords)
      ensures result == old(result) && isLoading == old(isLoading) && pending == old(pending)
    {
      if d == NetherToOverworld {
        var ok := ValidateInputs(netherParam, Nether);
        if !ok {
          return None;
        }
      }
      if d == OverworldToNether {
        var ok := ValidateInputs(overworldParam, Overworld);
        if !ok {
          return None;
        }
      }
      if d == NetherToOverworld {
        r := Some(Summary(Nether, netherParam, ConvertNetherToOverworld(netherParam)));
      } else {
        r := Some(Summary(Overworld, overworldParam, ConvertOverworldToNether(overworldParam)));
      }
    }

    /** The timer callback: it stores the template of getConversionResult on
        the captured snapshot, with the arguments as the page passes them, and
        ends loading. Edits and toggles made since convert do not reach it. */
    method Complete()
      requires Valid() && pending.Some?
      modifies this
      ensures Valid()
      ensures !isLoading && pending == None
      ensures result == Some(CompletionResult(old(pending.value)))
      ensures old(pending.value.direction) == NetherToOverworld ==> result != Some(UndefinedText)
      ensures validationErrors == old(validationErrors) + CompletionErrors(old(pending.value))
      ensures direction == old(direction) && netherCoords == old(netherCoords) && overworldCoords == old(overworldCoords)
    {
      var snapshot := pending.value;
      var r;
      if snapshot.direction == NetherToOverworld {
        r := GetConversionResult(snapshot.direction, snapshot.nether, snapshot.overworld);
      } else {
        r := GetConversionResult(snapshot.direction, snapshot.overworld, snapshot.nether);
      }
      result := Some(Template(r));
      isLoading := false;
      pending := None;
    }

    /** updateNetherCoords: the one Nether field is replaced and its own error
        flag, if set, is removed; everything else is kept. */
    method UpdateNetherCoords(field: Axis, value: string)
      requires Valid()
      modifies this
      ensures Valid()
      ensures netherCoords == old(netherCoords).With(field, value)
      ensures validationErrors == old(validationErrors) - {FieldKey(Nether, field)}
      ensures direction == old(direction) && overworldCoords == old(overworldCoords)
      ensures result == old(result) && isLoading == old(isLoading) && pending == old(pending)
    {
      netherCoords := netherCoords.With(field, value);
      if FieldKey(Nether, field) in validationErrors {
        validationErrors := validationErrors - {FieldKey(Nether, field)};
      }
    }

    /** updateOverworldCoords: the one Overworld field is replaced and its own
        error flag, if set, is removed; everything else is kept. */
    method UpdateOverworldCoords(field: Axis, value: string)
      requires Valid()
      modifies this
      ensures Valid()
      ensures overworldCoords == old(overworldCoords).With(field, value)
      ensures validationErrors == old(validationErrors) - {FieldKey(Overworld, field)}
      ensures direction == old(direction) && netherCoords == old(netherCoords)
      ensures result == old(result) && isLoading == old(isLoading) && pending == old(pending)
    {
      overworldCoords := overworldCoords.With(field, value);
      if FieldKey(Overworld, field) in validationErrors {
        validationErrors := validationErrors - {FieldKey(Overworld, field)};
      }
    }
  }
}
