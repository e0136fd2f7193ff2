// The code-execution wrapper: the canonical input check, the dispatch on
// mode, the table of tasks, and the normalisation of each task's variables.
// The Python text a task generates is abstracted as a `Generated` value
// naming the chosen task and its normalised inputs, rendered to code by `render`;
// what the generated pack-energy and range programs compute is stated as
// functions on reals. The notation, capacity and voltage regexes of the
// battery task are `PackParsers`.
module CodeExecWrapper {
  import opened Wrappers
  import opened Json
  import opened Text
  import opened BaseTool
  import CodeExecutor

  const WrapperName: string := "CodeExecWrapper"

  function Failure(error: string, data: seq<(string, Json)>): ToolResult
  {
    ToolResult(WrapperName, Failed, Some(data), Some(error), 0, false)
  }

  function ReceivedKeys(parameters: seq<(string, Json)>): Json
  {
    JArr(StrList(Keys(parameters)))
  }

  // ---------------------------------------------------------------------
  // Input validation

  predicate ValidMode(mode: Json)
  {
    mode == JStr("task") || mode == JStr("raw_code")
  }

  /** What `_validate_input` can find wrong with the input, with the offending value. */
  datatype InputProblem = MissingLanguage | UnsupportedLanguage(language: Json) | MissingMode | InvalidMode(mode: Json)

  /** The checks in their order: language present, language python, mode present, mode known; the first failure wins. */
  function InputProblemOf(parameters: seq<(string, Json)>): (p: Option<InputProblem>)
    ensures p.None? <==>
      Lookup(parameters, "language") == Some(JStr("python"))
      && Lookup(parameters, "mode").Some? && ValidMode(Lookup(parameters, "mode").value)
  {
    var language := Lookup(parameters, "language");
    var mode := Lookup(parameters, "mode");
    if language.None? then Some(MissingLanguage)
    else if language.value != JStr("python") then Some(UnsupportedLanguage(language.value))
    else if mode.None? then Some(MissingMode)
    else if !ValidMode(mode.value) then Some(InvalidMode(mode.value))
    else None
  }

  /** A later check is reached only when every earlier one has passed. */
  lemma InputCheckOrder(parameters: seq<(string, Json)>)
    ensures var p := InputProblemOf(parameters);
      (p == Some(MissingLanguage) <==> !HasKey(parameters, "language"))
      && (p.Some? && p.value.UnsupportedLanguage? <==>
            HasKey(parameters, "language") && Lookup(parameters, "language") != Some(JStr("python")))
      && (p == Some(MissingMode) <==> Lookup(parameters, "language") == Some(JStr("python")) && !HasKey(parameters, "mode"))
      && (p.Some? && p.value.InvalidMode? ==> p.value.mode == Lookup(parameters, "mode").value && !ValidMode(p.value.mode))
  {
  }

  /** The error text of each problem; the offending value is shown with Python's `str`. */
  function ProblemMessage(p: InputProblem, show: Json -> string): string
  {
    match p
    case MissingLanguage => "Missing required field 'language'"
    case UnsupportedLanguage(language) => "Unsupported language: '" + show(language) + "'"
    case MissingMode => "Missing required field 'mode'"
    case InvalidMode(mode) => "Invalid mode: '" + show(mode) + "'"
  }

  /** The data of each problem: the keys received when a field is missing, the supported values otherwise. */
  function ProblemData(p: InputProblem, parameters: seq<(string, Json)>): seq<(string, Json)>
  {
    match p
    case MissingLanguage => MissingFieldData("PlanAnalyzer must include 'language': 'python' in code_exec input", parameters)
    case UnsupportedLanguage(_) =>
      [("supported_languages", JArr([JStr("python")])), ("fix_hint", JStr("PlanAnalyzer must set language='python'"))]
    case MissingMode => MissingFieldData("PlanAnalyzer must include 'mode': 'task' or 'raw_code' in code_exec input", parameters)
    case InvalidMode(_) =>
      [("supported_modes", JArr([JStr("task"), JStr("raw_code")])),
       ("fix_hint", JStr("PlanAnalyzer must set mode to 'task' or 'raw_code'"))]
  }

  /** `_validate_input`: a failed result for the first problem, listing the keys received when a field is missing; `None` for canonical input. */
  function ValidateInput(parameters: seq<(string, Json)>, show: Json -> string): (r: Option<ToolResult>)
    ensures r.None? <==> InputProblemOf(parameters).None?
    ensures r.Some? ==>
      r.value.status == Failed && r.value.toolName == WrapperName
      && r.value.error == Some(ProblemMessage(InputProblemOf(parameters).value, show))
    ensures r.Some? && InputProblemOf(parameters).value in {MissingLanguage, MissingMode} ==>
      r.value.data.Some? && Lookup(r.value.data.value, "received_parameters") == Some(ReceivedKeys(parameters))
  {
    var p := InputProblemOf(parameters);
    if p.None? then None
    else Some(Failure(ProblemMessage(p.value, show), ProblemData(p.value, parameters)))
  }

  // ---------------------------------------------------------------------
  // Battery pack energy

  /**
   * The regex searches of the battery task over the query text: the XsYp
   * notation (series, parallel), the capacity number with whether the match
   * itself carried the milli prefix, and the cell voltage.
   */
  datatype PackParsers = PackParsers(
    pack: string -> Option<(nat, nat)>,
    capacity: string -> Option<(nat, bool)>,
    voltage: string -> Option<real>)

  /**
   * The capacity in Ah as the source computes it: divided by 1000 whenever
   * the lower-cased query contains "mah" or merely "ma", wherever it occurs.
   */
  function CapacityAhAsWritten(query: string, value: nat): real
  {
    if Contains(Lower(query), "mah") || Contains(Lower(query), "ma") then value as real / 1000.0 else value as real
  }

  /** The capacity in Ah read from the capacity match itself: mAh is divided by 1000, Ah is kept. */
  function CapacityAh(value: nat, milli: bool): (ah: real)
    ensures milli ==> ah * 1000.0 == value as real
    ensures !milli ==> ah == value as real
  {
    if milli then value as real / 1000.0 else value as real
  }

  /** A text that contains "mah" contains "ma". */
  lemma MahHasMa(lq: string)
    ensures Contains(lq, "mah") ==> Contains(lq, "ma")
  {
    if Contains(lq, "mah") {
      var mah, ma := "mah", "ma";
      var i :| 0 <= i <= |lq| && MatchAt(lq, mah, i);
      assert |mah| == 3 && lq[i..i + 3] == mah;
      assert lq[i] == 'm' && lq[i + 1] == 'a' by {
        assert lq[i] == lq[i..i + 3][0] && lq[i + 1] == lq[i..i + 3][1];
      }
      assert lq[i..i + 2] == ma;
      assert MatchAt(lq, ma, i);
    }
  }

  /** Where the query does not mention "ma" at all, the rule as written reads an Ah match as Ah, as the corrected rule does. */
  lemma AsWrittenWithoutMa(query: string, value: nat)
    requires !Contains(Lower(query), "ma")
    ensures CapacityAhAsWritten(query, value) == CapacityAh(value, false)
  {
    MahHasMa(Lower(query));
  }

  /** Writes a number under a key, leaving every other key's value as it was. */
  function PutNum(variables: seq<(string, Json)>, key: string, x: real): (r: seq<(string, Json)>)
    ensures Lookup(r, key) == Some(JNum(x))
    ensures forall k :: k != key ==> Lookup(r, k) == Lookup(variables, k)
  {
    forall k | k != key
      ensures Lookup(Put(variables, key, JNum(x)), k) == Lookup(variables, k)
    {
      PutOther(variables, key, JNum(x), k);
    }
    Put(variables, key, JNum(x))
  }

  /** The series and parallel counts of parsed XsYp notation. */
  function WithPack(variables: seq<(string, Json)>, query: string, parsers: PackParsers): (r: seq<(string, Json)>)
    ensures parsers.pack(query).Some? ==>
      Lookup(r, "cells_in_series") == Some(JNum(parsers.pack(query).value.0 as real))
      && Lookup(r, "cells_in_parallel") == Some(JNum(parsers.pack(query).value.1 as real))
    ensures forall k :: k != "cells_in_series" && k != "cells_in_parallel" ==> Lookup(r, k) == Lookup(variables, k)
  {
    if parsers.pack(query).Some? then
      var (s, p) := parsers.pack(query).value;
      PutNum(PutNum(variables, "cells_in_series", s as real), "cells_in_parallel", p as real)
    else variables
  }

  /**
   * The query's notation, capacity and voltage written over the variables;
   * the capacity by the rule as written, or, when `corrected`, by the
   * capacity match's own unit.
   */
  function PackVariablesBy(variables: seq<(string, Json)>, parsers: PackParsers, corrected: bool): (r: seq<(string, Json)>)
  {
    var q := Lookup(variables, "query");
    if q.Some? && q.value.JStr? then
      var query := q.value.s;
      var withPack := WithPack(variables, query, parsers);
      var withCapacity :=
        if parsers.capacity(query).Some? then
          var (c, milli) := parsers.capacity(query).value;
          PutNum(withPack, "cell_nominal_capacity_ah", if corrected then CapacityAh(c, milli) else CapacityAhAsWritten(query, c))
        else withPack;
      if parsers.voltage(query).Some? then PutNum(withCapacity, "cell_nominal_voltage_v", parsers.voltage(query).value)
      else withCapacity
    else variables
  }

  /** The variables as `_task_battery_pack_energy` leaves them. */
  function PackVariables(variables: seq<(string, Json)>, parsers: PackParsers): (r: seq<(string, Json)>)
  {
    PackVariablesBy(variables, parsers, false)
  }

  /** The same with the capacity read from its match alone. */
  function PackVariablesCorrected(variables: seq<(string, Json)>, parsers: PackParsers): (r: seq<(string, Json)>)
  {
    PackVariablesBy(variables, parsers, true)
  }

  /** A capacity match is stored: as written, divided by 1000 when the query contains "ma" anywhere. */
  lemma PackCapacityAsWritten(variables: seq<(string, Json)>, parsers: PackParsers, query: string)
    requires Lookup(variables, "query") == Some(JStr(query)) && parsers.capacity(query).Some?
    ensures Lookup(PackVariables(variables, parsers), "cell_nominal_capacity_ah")
      == Some(JNum(CapacityAhAsWritten(query, parsers.capacity(query).value.0)))
  {
  }

  /** Corrected, an Ah match is stored as it is and an mAh match divided by 1000, whatever else the query says. */
  lemma PackCapacityCorrected(variables: seq<(string, Json)>, parsers: PackParsers, query: string)
    requires Lookup(variables, "query") == Some(JStr(query)) && parsers.capacity(query).Some?
    ensures var (c, milli) := parsers.capacity(query).value;
      Lookup(PackVariablesCorrected(variables, parsers), "cell_nominal_capacity_ah")
        == Some(JNum(if milli then c as real / 1000.0 else c as real))
  {
  }

  /** The example query mentions "ma", inside "max". */
  lemma MaInExample(query: string)
    requires query == "13s4p 3Ah cells, max 4V"
    ensures CapacityAhAsWritten(query, 3) == 0.003
  {
    var lq := Lower(query);
    assert lq[17..19] == "ma";
    assert MatchAt(lq, "ma", 17);
  }

  /**
   * As written, an "Ah" capacity is read as mAh whenever "ma" occurs anywhere
   * in the query: "13s4p 3Ah cells, max 4V" stores 0.003 Ah for a 3 Ah cell,
   * where the corrected rule stores 3.
   */
  lemma MaMisreadsAh(variables: seq<(string, Json)>, parsers: PackParsers, query: string)
    requires query == "13s4p 3Ah cells, max 4V"
    requires Lookup(variables, "query") == Some(JStr(query)) && parsers.capacity(query) == Some((3, false))
    ensures Lookup(PackVariables(variables, parsers), "cell_nominal_capacity_ah") == Some(JNum(0.003))
    ensures Lookup(PackVariablesCorrected(variables, parsers), "cell_nominal_capacity_ah") == Some(JNum(3.0))
  {
    MaInExample(query);
    PackCapacityAsWritten(variables, parsers, query);
    PackCapacityCorrected(variables, parsers, query);
  }

  /** Parsed XsYp notation wins over the given series and parallel counts; every key the parsers do not write is kept. */
  lemma PackVariablesStored(variables: seq<(string, Json)>, parsers: PackParsers, k: string)
    ensures var q := Lookup(variables, "query"); var r := PackVariables(variables, parsers);
      (q.Some? && q.value.JStr? && parsers.pack(q.value.s).Some? ==>
        Lookup(r, "cells_in_series") == Some(JNum(parsers.pack(q.value.s).value.0 as real))
        && Lookup(r, "cells_in_parallel") == Some(JNum(parsers.pack(q.value.s).value.1 as real)))
      && (k !in {"cells_in_series", "cells_in_parallel", "cell_nominal_capacity_ah", "cell_nominal_voltage_v"} ==>
        Lookup(r, k) == Lookup(variables, k))
  {
  }

  /** The totals the generated pack-energy program prints. */
  datatype PackTotals = PackTotals(totalCells: int, packVoltageV: real, packCapacityAh: real, packEnergyWh: real, packEnergyKwh: real)

  /** The pack formulas: cells s·p, voltage s·V, capacity p·Ah, energy V·Ah in Wh and that over 1000 in kWh. */
  function PackEnergy(series: int, parallel: int, cellVoltage: real, cellCapacity: real): (t: PackTotals)
    ensures t.totalCells == series * parallel
    ensures t.packEnergyWh == (series as real * cellVoltage) * (parallel as real * cellCapacity)
    ensures t.packEnergyKwh * 1000.0 == t.packEnergyWh
  {
    var v := series as real * cellVoltage;
    var ah := parallel as real * cellCapacity;
    PackTotals(series * parallel, v, ah, v * ah, v * ah / 1000.0)
  }

  /** A 13S4P pack of 3.6 V, 3.4 Ah cells holds 52 cells and 0.63648 kWh. */
  lemma PackExample()
    ensures PackEnergy(13, 4, 3.6, 3.4).totalCells == 52
    ensures PackEnergy(13, 4, 3.6, 3.4).packEnergyWh == 636.48
    ensures PackEnergy(13, 4, 3.6, 3.4).packEnergyKwh == 0.63648
  {
  }

  // ---------------------------------------------------------------------
  // Battery range and unit conversion

  /** The range the generated program prints: capacity over consumption, or 0 without positive consumption. */
  function RangeDistance(capacityWh: real, consumption: real): (d: real)
    ensures consumption <= 0.0 ==> d == 0.0
    ensures consumption > 0.0 ==> d * consumption == capacityWh
  {
    if consumption > 0.0 then capacityWh / consumption else 0.0
  }

  /** The conversion table of the generated unit-conversion program, on lower-cased unit names. */
  function ConversionFactor(fromUnit: string, toUnit: string): Option<real>
  {
    var key := (Lower(fromUnit), Lower(toUnit));
    if key == ("wh", "kwh") then Some(0.001)
    else if key == ("kwh", "wh") then Some(1000.0)
    else if key == ("mah", "ah") then Some(0.001)
    else if key == ("ah", "mah") then Some(1000.0)
    else if key == ("mph", "ms") then Some(0.44704)
    else if key == ("ms", "mph") then Some(2.23694)
    else None
  }

  /**
   * Every supported conversion can be undone: the reverse pair is supported
   * too, and the two factors multiply to 1 exactly for energy and charge and
   * to within 0.00001 for the two speed units.
   */
  lemma ReverseConversion(fromUnit: string, toUnit: string)
    requires ConversionFactor(fromUnit, toUnit).Some?
    ensures ConversionFactor(toUnit, fromUnit).Some?
    ensures var p := ConversionFactor(fromUnit, toUnit).value * ConversionFactor(toUnit, fromUnit).value;
      0.99999 < p < 1.00001 && (Lower(fromUnit) != "mph" && Lower(fromUnit) != "ms" ==> p == 1.0)
  {
  }

  /** The speed factors are not exact inverses. */
  lemma SpeedFactorsInexact()
    ensures 0.44704 * 2.23694 != 1.0
  {
  }

  // ---------------------------------------------------------------------
  // Task generation

  /** The program a task generates, by its inputs. */
  datatype Generated =
    | PackEnergyCode(cellsInSeries: Json, cellsInParallel: Json, cellVoltage: Json, cellCapacity: Json)
    | RangeCode(capacityWh: Json, consumption: Json, distanceUnit: string)
    | UnitConversionCode(value: Json, fromUnit: Json, toUnit: Json)
    | PhysicsCode(assignments: seq<(string, Json)>)
    | GenericMathCode(assignments: seq<(string, Json)>)
    | DatetimeCode

  const TaskNames: seq<string> :=
    ["battery_pack_energy", "battery_range", "unit_conversion", "physics_calculation", "generic_math", "get_current_datetime"]

  /** The tasks the unknown-task error lists; `get_current_datetime` is handled but not listed. */
  const ListedTasks: seq<string> :=
    ["battery_pack_energy", "battery_range", "unit_conversion", "physics_calculation", "generic_math"]

  /** `_task_battery_pack_energy`: the four cell values after the query is parsed; one missing is a KeyError. */
  function PackTask(variables: Json, parsers: PackParsers): (r: Result<Generated>)
    ensures r.Ok? ==> r.value.PackEnergyCode? && variables.JObj?
    ensures !variables.JObj? ==> r == Err("TypeError")
  {
    if !variables.JObj? then Err("TypeError")
    else
      var v := PackVariables(variables.fields, parsers);
      var s := Lookup(v, "cells_in_series");
      var p := Lookup(v, "cells_in_parallel");
      var volt := Lookup(v, "cell_nominal_voltage_v");
      var cap := Lookup(v, "cell_nominal_capacity_ah");
      if s.None? || p.None? || volt.None? || cap.None? then Err("KeyError")
      else Ok(PackEnergyCode(s.value, p.value, volt.value, cap.value))
  }

  /**
   * The exception a handler raises on variables that are not a dict when it
   * first tests `key in variables` and then reads them as a dict: the `in`
   * test raises TypeError on None, booleans and numbers; on a string or list
   * holding the key, indexing by the key raises TypeError; otherwise the dict
   * method that follows (`.get`, `.items`) raises AttributeError.
   */
  function KeyTestError(variables: Json, key: string): (e: string)
    requires !variables.JObj?
    ensures e == "AttributeError" <==>
      (variables.JStr? && !Contains(variables.s, key)) || (variables.JArr? && JStr(key) !in variables.items)
    ensures e == "TypeError" || e == "AttributeError"
  {
    match variables
    case JStr(text) => if Contains(text, key) then "TypeError" else "AttributeError"
    case JArr(xs) => if JStr(key) in xs then "TypeError" else "AttributeError"
    case _ => "TypeError"
  }

  /** Python's `xs * n` on a string or list: `n` copies of `xs` one after another. */
  function Repeat<T>(xs: seq<T>, n: nat): (r: seq<T>)
    ensures |r| == |xs| * n
    ensures forall i :: 0 <= i < |r| ==> r[i] == xs[i % |xs|]
  {
    if xs == [] then [] else seq(|xs| * n, i requires 0 <= i < |xs| * n => xs[i % |xs|])
  }

  /**
   * `value * 1000`: numbers scale, a boolean counts as 0 or 1, a string or
   * list is repeated a thousand times; None and a dict raise TypeError.
   */
  function Thousandfold(value: Json): (r: Option<Json>)
    ensures r.None? <==> value.JNull? || value.JObj?
    ensures value.JNum? ==> r == Some(JNum(value.n * 1000.0))
    ensures value.JBool? ==> r == Some(JNum(if value.b then 1000.0 else 0.0))
    ensures value.JStr? ==> r.Some? && r.value.JStr? && |r.value.s| == 1000 * |value.s|
    ensures value.JArr? ==> r.Some? && r.value.JArr? && |r.value.items| == 1000 * |value.items|
  {
    match value
    case JNum(n) => Some(JNum(n * 1000.0))
    case JBool(b) => Some(JNum(if b then 1000.0 else 0.0))
    case JStr(text) => Some(JStr(Repeat(text, 1000)))
    case JArr(xs) => Some(JArr(Repeat(xs, 1000)))
    case _ => None
  }

  /** `_task_battery_range`: kWh (times 1000) wins over Wh, per-km wins over per-mile, and a missing value is 0. */
  function RangeTask(variables: Json): (r: Result<Generated>)
    ensures r.Ok? ==> r.value.RangeCode? && variables.JObj?
    ensures !variables.JObj? ==> r == Err(KeyTestError(variables, "battery_capacity_kwh"))
    ensures variables.JObj? ==> (r.Err? <==>
      var kwh := Lookup(variables.fields, "battery_capacity_kwh"); kwh.Some? && (kwh.value.JNull? || kwh.value.JObj?))
  {
    if !variables.JObj? then Err(KeyTestError(variables, "battery_capacity_kwh"))
    else
      var fields := variables.fields;
      var kwh := Lookup(fields, "battery_capacity_kwh");
      var perKm := Lookup(fields, "consumption_wh_per_km");
      var (consumption, unit) :=
        if perKm.Some? then (perKm.value, "km") else (GetOr(fields, "consumption_wh_per_mile", JNum(0.0)), "miles");
      if kwh.Some? then
        match Thousandfold(kwh.value)
        case Some(wh) => Ok(RangeCode(wh, consumption, unit))
        case None => Err("TypeError")
      else Ok(RangeCode(GetOr(fields, "battery_capacity_wh", JNum(0.0)), consumption, unit))
  }

  /** A kWh capacity given as text still generates a program, with the text repeated a thousand times as the capacity. */
  lemma RangeTextCapacity(fields: seq<(string, Json)>, text: string)
    requires Lookup(fields, "battery_capacity_kwh") == Some(JStr(text))
    ensures var r := RangeTask(JObj(fields));
      r.Ok? && r.value.capacityWh == JStr(Repeat(text, 1000)) && |r.value.capacityWh.s| == 1000 * |text|
  {
  }

  /** With both capacities and both consumptions given, the kWh capacity (in Wh) and the per-km consumption are used. */
  lemma RangePrecedence(fields: seq<(string, Json)>, kwh: real)
    requires Lookup(fields, "battery_capacity_kwh") == Some(JNum(kwh))
    requires HasKey(fields, "consumption_wh_per_km")
    ensures RangeTask(JObj(fields)) == Ok(RangeCode(JNum(kwh * 1000.0), Lookup(fields, "consumption_wh_per_km").value, "km"))
  {
  }

  /** With no capacity and no consumption given, both default to 0 and the unit to miles. */
  lemma RangeDefaults(fields: seq<(string, Json)>)
    requires !HasKey(fields, "battery_capacity_kwh") && !HasKey(fields, "battery_capacity_wh")
    requires !HasKey(fields, "consumption_wh_per_km") && !HasKey(fields, "consumption_wh_per_mile")
    ensures RangeTask(JObj(fields)) == Ok(RangeCode(JNum(0.0), JNum(0.0), "miles"))
  {
  }

  /** `_task_unit_conversion`: the value and both unit names are required. */
  function UnitConversionTask(variables: Json): (r: Result<Generated>)
    ensures r.Ok? <==> (variables.JObj? && HasKey(variables.fields, "value")
      && HasKey(variables.fields, "from_unit") && HasKey(variables.fields, "to_unit"))
  {
    if !variables.JObj? then Err("TypeError")
    else
      var value := Lookup(variables.fields, "value");
      var fromUnit := Lookup(variables.fields, "from_unit");
      var toUnit := Lookup(variables.fields, "to_unit");
      if value.None? || fromUnit.None? || toUnit.None? then Err("KeyError")
      else Ok(UnitConversionCode(value.value, fromUnit.value, toUnit.value))
  }

  /** The variables other than `query`, in their order. */
  function WithoutQuery(fields: seq<(string, Json)>): (r: seq<(string, Json)>)
    ensures forall i :: 0 <= i < |r| ==> r[i].0 != "query" && r[i] in fields
    ensures forall e :: e in fields && e.0 != "query" ==> e in r
  {
    if fields == [] then []
    else (if fields[0].0 == "query" then [] else [fields[0]]) + WithoutQuery(fields[1..])
  }

  /** `_task_generic_math`: XsYp notation in the query hands over to the pack task; otherwise every variable but `query` is assigned. */
  function GenericMathTask(variables: Json, parsers: PackParsers): (r: Result<Generated>)
    ensures !variables.JObj? ==> r == Err(KeyTestError(variables, "query"))
  {
    if !variables.JObj? then Err(KeyTestError(variables, "query"))
    else
      var q := Lookup(variables.fields, "query");
      if q.Some? && q.value.JStr? && parsers.pack(q.value.s).Some? then PackTask(variables, parsers)
      else Ok(GenericMathCode(WithoutQuery(variables.fields)))
  }

  /** Generic math delegates exactly on pack notation, and never assigns `query`. */
  lemma GenericMathShape(variables: Json, parsers: PackParsers)
    ensures var r := GenericMathTask(variables, parsers);
      var q := if variables.JObj? then Lookup(variables.fields, "query") else None;
      (q.Some? && q.value.JStr? && parsers.pack(q.value.s).Some? ==> r == PackTask(variables, parsers))
      && (r.Ok? && r.value.GenericMathCode? ==> forall e :: e in r.value.assignments ==> e.0 != "query")
  {
  }

  /** `_generate_code_for_task`: the handler for a known task name; `None` for any other hashable task; lists and dicts cannot be looked up. */
  function GenerateCode(task: Json, variables: Json, parsers: PackParsers): (r: Result<Option<Generated>>)
    ensures (task.JArr? || task.JObj?) ==> r.Err?
    ensures r.Ok? && r.value.None? <==> !task.JArr? && !task.JObj? && !(task.JStr? && task.s in TaskNames)
    // the datetime handler ignores its variables; every other handler raises on variables that are not a dict
    ensures task == JStr("get_current_datetime") ==> r == Ok(Some(DatetimeCode))
    ensures task.JStr? && task.s in TaskNames && task.s != "get_current_datetime" && !variables.JObj? ==> r.Err?
  {
    if task.JArr? || task.JObj? then Err("TypeError")
    else if !task.JStr? || task.s !in TaskNames then Ok(None)
    else
      var g :=
        if task.s == "battery_pack_energy" then PackTask(variables, parsers)
        else if task.s == "battery_range" then RangeTask(variables)
        else if task.s == "unit_conversion" then UnitConversionTask(variables)
        else if task.s == "physics_calculation" then
          (if variables.JObj? then Ok(PhysicsCode(variables.fields)) else Err("AttributeError"))
        else if task.s == "generic_math" then GenericMathTask(variables, parsers)
        else Ok(DatetimeCode);
      match g
      case Ok(code) => Ok(Some(code))
      case Err(e) => Err(e)
  }

  // ---------------------------------------------------------------------
  // Execute

  /** The data of a missing-field failure: a hint and the keys that were received. */
  function MissingFieldData(hint: string, parameters: seq<(string, Json)>): (d: seq<(string, Json)>)
    ensures Lookup(d, "received_parameters") == Some(ReceivedKeys(parameters))
  {
    var d := [("fix_hint", JStr(hint)), ("received_parameters", ReceivedKeys(parameters))];
    LookupAt(d, "received_parameters", 1);
    d
  }

  /** Raw-code mode: the code is handed to the executor as it is; without code the call fails, listing the keys received. */
  function RunRawCode(parameters: seq<(string, Json)>, sandbox: CodeExecutor.Sandbox, timeoutSeconds: nat): (r: Result<ToolResult>)
    ensures !HasKey(parameters, "code") ==>
      r.Ok? && r.value.status == Failed && r.value.error == Some("mode='raw_code' requires 'code' parameter")
      && r.value.data.Some? && Lookup(r.value.data.value, "received_parameters") == Some(ReceivedKeys(parameters))
    ensures HasKey(parameters, "code") ==>
      r == CodeExecutor.Execute([("code", Lookup(parameters, "code").value)], sandbox, timeoutSeconds)
  {
    var code := Lookup(parameters, "code");
    if code.None? then
      Ok(Failure("mode='raw_code' requires 'code' parameter",
        MissingFieldData("PlanAnalyzer must include 'code' field when mode='raw_code'", parameters)))
    else CodeExecutor.Execute([("code", code.value)], sandbox, timeoutSeconds)
  }

  /** The failure for a task with no program, reporting its name. */
  function UnknownTask(task: Json, show: Json -> string): (r: ToolResult)
    ensures r.status == Failed && r.error == Some("Unknown task: '" + show(task) + "'")
    ensures r.data.Some? && Lookup(r.data.value, "task") == Some(task)
  {
    Failure("Unknown task: '" + show(task) + "'",
      [("task", task), ("supported_tasks", JArr(StrList(ListedTasks))),
       ("fix_hint", JStr("PlanAnalyzer must use a supported task name"))])
  }

  /**
   * Task mode: a missing or falsy task fails listing the keys received; an
   * unknown task fails reporting its name and nothing is run; a known task's
   * program is run once its variables' keys are logged, so variables that are
   * not a dict never reach the executor.
   */
  function RunTask(parameters: seq<(string, Json)>, sandbox: CodeExecutor.Sandbox, timeoutSeconds: nat,
                   parsers: PackParsers, show: Json -> string, render: Generated -> string): (r: Result<ToolResult>)
    ensures var task := GetOr(parameters, "task", JNull);
      (!Truthy(task) ==>
        r.Ok? && r.value.status == Failed && r.value.error == Some("mode='task' requires 'task' parameter")
        && r.value.data.Some? && Lookup(r.value.data.value, "received_parameters") == Some(ReceivedKeys(parameters)))
      && (Truthy(task) && task.JStr? && task.s !in TaskNames ==> r == Ok(UnknownTask(task, show)))
      && (Truthy(task) && (task.JArr? || task.JObj?) ==> r.Err?)
  {
    var task := GetOr(parameters, "task", JNull);
    var variables := GetOr(parameters, "variables", JObj([]));
    if !Truthy(task) then
      Ok(Failure("mode='task' requires 'task' parameter",
        MissingFieldData("PlanAnalyzer must include 'task' field when mode='task'", parameters)))
    else
      match GenerateCode(task, variables, parsers)
      case Err(e) => Err(e)
      case Ok(generated) =>
        if generated.Some? && render(generated.value) != "" then
          // `list(variables.keys())` in the log line
          if !variables.JObj? then Err("AttributeError")
          else CodeExecutor.Execute([("code", JStr(render(generated.value)))], sandbox, timeoutSeconds)
        else Ok(UnknownTask(task, show))
  }

  /**
   * Task-mode variables that are not a dict never reach the executor: a
   * known task raises, in its handler or, for `get_current_datetime`, when
   * the variables' keys are logged.
   */
  lemma NonDictVariablesNeverRun(parameters: seq<(string, Json)>, sandbox: CodeExecutor.Sandbox, timeoutSeconds: nat,
                                 parsers: PackParsers, show: Json -> string, render: Generated -> string)
    requires Truthy(GetOr(parameters, "task", JNull)) && !GetOr(parameters, "variables", JObj([])).JObj?
    ensures var task := GetOr(parameters, "task", JNull);
      var r := RunTask(parameters, sandbox, timeoutSeconds, parsers, show, render);
      (r.Err? || r == Ok(UnknownTask(task, show)))
      && (task == JStr("get_current_datetime") && render(DatetimeCode) != "" ==> r == Err("AttributeError"))
  {
  }

  /** `execute`: a validation failure is returned before any code is generated or run; valid input is dispatched on its mode. */
  function Execute(parameters: seq<(string, Json)>, sandbox: CodeExecutor.Sandbox, timeoutSeconds: nat,
                   parsers: PackParsers, show: Json -> string, render: Generated -> string): (r: Result<ToolResult>)
    ensures ValidateInput(parameters, show).Some? ==> r == Ok(ValidateInput(parameters, show).value)
    ensures ValidateInput(parameters, show).None? && Lookup(parameters, "mode") == Some(JStr("raw_code")) ==>
      r == RunRawCode(parameters, sandbox, timeoutSeconds)
    ensures ValidateInput(parameters, show).None? && Lookup(parameters, "mode") != Some(JStr("raw_code")) ==>
      Lookup(parameters, "mode") == Some(JStr("task")) && r == RunTask(parameters, sandbox, timeoutSeconds, parsers, show, render)
  {
    var invalid := ValidateInput(parameters, show);
    if invalid.Some? then Ok(invalid.value)
    else if Lookup(parameters, "mode") == Some(JStr("raw_code")) then RunRawCode(parameters, sandbox, timeoutSeconds)
    else RunTask(parameters, sandbox, timeoutSeconds, parsers, show, render)
  }

  /** The first problem found is what `execute` reports, whatever the sandbox, parsers or renderer. */
  lemma ValidationFirst(parameters: seq<(string, Json)>, sandbox: CodeExecutor.Sandbox, timeoutSeconds: nat,
                        parsers: PackParsers, show: Json -> string, render: Generated -> string)
    requires InputProblemOf(parameters).Some?
    ensures var r := Execute(parameters, sandbox, timeoutSeconds, parsers, show, render);
      r.Ok? && r.value.status == Failed && r.value.toolName == WrapperName
  {
  }

  /** `fallback`: the executor's fallback. */
  function Fallback(parameters: seq<(string, Json)>, error: string): ToolResult
  {
    CodeExecutor.Fallback(parameters, error)
  }
}
