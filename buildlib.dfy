/**
 * What build/lib/labjackcontroller/labtools.py adds to the reader: the
 * `Singleton` metaclass cache, the `LJMLibrary.modify_settings` and
 * `LabjackReader.modify_settings` setting writers, `_setup` issuing its
 * writes through them, and the argument guard of `__init__` (the same guard
 * as in labjackcontroller/labtools.py).
 *
 * Keyword arguments are an ordered sequence of name/value pairs, in the
 * order the caller passed them. Register writes are appended to a log;
 * the error codes the library would return are not modelled. String
 * comparisons written with `is` are modelled as equality.
 */
module BuildLib {
  import opened Values
  import Controller

  /** An object built by a class whose metaclass is `Singleton`. */
  class Instance {
    const cls: string
    const args: seq<PyValue>

    constructor(cls: string, args: seq<PyValue>)
      ensures this.cls == cls && this.args == args
    {
      this.cls, this.args := cls, args;
    }
  }

  /** The metaclass's `_instances` dictionary, keyed by class. */
  class Singleton {
    var instances: map<string, Instance>

    constructor()
      ensures instances == map[]
    {
      instances := map[];
    }

    /** `Singleton.__call__`: builds an instance on a class's first call only; every call returns the cached one. */
    method Call(cls: string, args: seq<PyValue>) returns (obj: Instance)
      modifies this
      ensures cls in old(instances) ==> obj == old(instances[cls]) && instances == old(instances)
      ensures cls !in old(instances) ==> fresh(obj) && obj.cls == cls && obj.args == args && instances == old(instances)[cls := obj]
      ensures cls in instances && instances[cls] == obj
    {
      if cls !in instances {
        obj := new Instance(cls, args);
        instances := instances[cls := obj];
      }
      obj := instances[cls];
    }
  }

  /** Two calls for one class yield one object, built from the first call's arguments when the class was new. */
  method CallTwice(meta: Singleton, cls: string, first: seq<PyValue>, second: seq<PyValue>) returns (a: Instance, b: Instance)
    modifies meta
    ensures a == b
    ensures cls !in old(meta.instances) ==> a.args == first
  {
    a := meta.Call(cls, first);
    b := meta.Call(cls, second);
  }

  // ---------------------------------------------------------------------
  // LJMLibrary.modify_settings
  // ---------------------------------------------------------------------

  /** The library key a keyword of `LJMLibrary.modify_settings` sets, if any. */
  function LibrarySetting(kwarg: string): (key: Option<string>)
    ensures key.Some? <==> kwarg == "multiple_feedbacks" || kwarg == "ensure_updated" || kwarg == "retry_on_transaction_err"
  {
    if kwarg == "multiple_feedbacks" then Some("LJM_ALLOWS_AUTO_MULTIPLE_FEEDBACKS")
    else if kwarg == "ensure_updated" then Some("LJM_OLD_FIRMWARE_CHECK")
    else if kwarg == "retry_on_transaction_err" then Some("LJM_RETRY_ON_TRANSACTION_ID_MISMATCH")
    else None
  }

  /** The library writes for a sequence of keyword arguments: one per known keyword, 1.0 for a truthy value and 0.0 otherwise. */
  function LibraryWrites(kwargs: seq<(string, PyValue)>): (writes: seq<Write>)
    ensures |writes| <= |kwargs|
    ensures forall i :: 0 <= i < |writes| ==> writes[i].value == 0.0 || writes[i].value == 1.0
  {
    if kwargs == [] then []
    else
      var key := LibrarySetting(kwargs[0].0);
      (if key.Some? then [Write(key.value, if Truthy(kwargs[0].1) then 1.0 else 0.0)] else [])
        + LibraryWrites(kwargs[1..])
  }

  /** Writes for a longer call are those of the shorter one followed by those of the extra keyword. */
  lemma {:induction false} LibraryWritesSnoc(kwargs: seq<(string, PyValue)>, kw: (string, PyValue))
    ensures LibraryWrites(kwargs + [kw]) == LibraryWrites(kwargs) + LibraryWrites([kw])
  {
    if kwargs == [] {
      assert kwargs + [kw] == [kw];
    } else {
      assert (kwargs + [kw])[1..] == kwargs[1..] + [kw];
      LibraryWritesSnoc(kwargs[1..], kw);
    }
  }

  /** The writes of the first `i + 1` keywords extend those of the first `i` by the write of keyword `i`, if it is a known one. */
  lemma LibraryWritesStep(kwargs: seq<(string, PyValue)>, i: nat)
    requires i < |kwargs|
    ensures LibraryWrites(kwargs[..i + 1]) == LibraryWrites(kwargs[..i])
      + (if LibrarySetting(kwargs[i].0).Some?
         then [Write(LibrarySetting(kwargs[i].0).value, if Truthy(kwargs[i].1) then 1.0 else 0.0)] else [])
  {
    LibraryWritesSnoc(kwargs[..i], kwargs[i]);
    assert kwargs[..i + 1] == kwargs[..i] + [kwargs[i]];
    assert [kwargs[i]][1..] == [];
  }

  /** Only the three known keys are ever written; any other keyword, `stream_timeout` included, writes nothing. */
  lemma {:induction false} LibraryWritesOnlyKnownKeys(kwargs: seq<(string, PyValue)>)
    ensures forall i :: 0 <= i < |LibraryWrites(kwargs)| ==>
      LibraryWrites(kwargs)[i].register in {"LJM_ALLOWS_AUTO_MULTIPLE_FEEDBACKS", "LJM_OLD_FIRMWARE_CHECK", "LJM_RETRY_ON_TRANSACTION_ID_MISMATCH"}
    ensures (forall i :: 0 <= i < |kwargs| ==> LibrarySetting(kwargs[i].0).None?) ==> LibraryWrites(kwargs) == []
  {
    if kwargs != [] {
      LibraryWritesOnlyKnownKeys(kwargs[1..]);
    }
  }

  /** The LJM library object; `config` logs the settings written to it. */
  class LJMLibrary {
    var config: seq<Write>

    constructor()
      ensures config == []
    {
      config := [];
    }

    /** `LJMLibrary.modify_settings`: one write per known keyword, in call order. */
    method ModifySettings(kwargs: seq<(string, PyValue)>)
      modifies this
      ensures config == old(config) + LibraryWrites(kwargs)
    {
      var i := 0;
      while i < |kwargs|
        invariant 0 <= i <= |kwargs|
        invariant config == old(config) + LibraryWrites(kwargs[..i])
      {
        LibraryWritesStep(kwargs, i);
        var setting := LibrarySetting(kwargs[i].0);
        if setting.Some? {
          var value := if Truthy(kwargs[i].1) then 1.0 else 0.0;
          config := config + [Write(setting.value, value)];
        }
        i := i + 1;
      }
      assert kwargs[..i] == kwargs;
    }
  }

  // ---------------------------------------------------------------------
  // LabjackReader.modify_settings
  // ---------------------------------------------------------------------

  /** The power register a boolean keyword names, if any. */
  function BooleanRegister(kwarg: string): (register: Option<string>)
    ensures register.Some? ==> |register.value| > 6 && register.value[..6] == "POWER_"
  {
    if kwarg == "ain_on" then Some("POWER_AIN")
    else if kwarg == "ain_on_default" then Some("POWER_AIN_DEFAULT")
    else if kwarg == "ethernet_on" then Some("POWER_ETHERNET")
    else if kwarg == "ethernet_on_default" then Some("POWER_ETHERNET_DEFAULT")
    else if kwarg == "led_on" then Some("POWER_LED")
    else if kwarg == "led_on_default" then Some("POWER_LED_DEFAULT")
    else if kwarg == "wifi_on" then Some("POWER_WIFI")
    else if kwarg == "wifi_on_default" then Some("POWER_WIFI_DEFAULT")
    else None
  }

  /** Exceptions `modify_settings` raises. */
  datatype SettingsError =
    | KeyError(key: string)   // kwargs looked up under a key it does not hold
    | TriggerValueError       // a trigger string outside DIO_EF0..DIO_EF7
    | TriggerTypeError        // a trigger that is neither None nor a string
    | ClockValueError         // a clock other than "internal" or "external"
    | UnboundError            // `error` read before any write assigned it

  /** The name of trigger line `k`, "DIO_EF0" .. "DIO_EF7". */
  function DioEfName(k: nat): string
    requires k < 8
  {
    "DIO_EF" + [('0' as int + k) as char]
  }

  /** The line number a trigger name selects, if it is one of DIO_EF0..DIO_EF7. */
  function DioEfLine(s: string): (k: Option<nat>)
    ensures k.Some? ==> k.value < 8 && DioEfName(k.value) == s
    ensures k.None? ==> forall j :: 0 <= j < 8 ==> DioEfName(j) != s
  {
    if |s| == 7 && s[..6] == "DIO_EF" && '0' <= s[6] <= '7' then
      assert s == "DIO_EF" + [s[6]];
      Some((s[6] as int - '0' as int) as nat)
    else None
  }

  /** The `STREAM_TRIGGER_INDEX` value for `triggered_stream`: 0 for None, 2000 + k for DIO_EFk. */
  function TriggerIndex(v: PyValue): (r: Result<real, SettingsError>)
    ensures r == Ok(0.0) <==> v == PyNone
    ensures r.Ok? && v != PyNone ==> exists k :: 0 <= k < 8 && v == PyStr(DioEfName(k)) && r.value == (2000 + k) as real
    ensures r.Err? ==> r.error == (if v.PyStr? then TriggerValueError else TriggerTypeError)
  {
    match v
    case PyNone => Ok(0.0)
    case PyStr(s) =>
      var k := DioEfLine(s);
      if k.Some? then Ok((2000 + k.value) as real) else Err(TriggerValueError)
    case _ => Err(TriggerTypeError)
  }

  /** Every trigger line is accepted and selects its own index. */
  lemma TriggerIndexOfEachLine(k: nat)
    requires k < 8
    ensures TriggerIndex(PyStr(DioEfName(k))) == Ok((2000 + k) as real)
  {
    var s := DioEfName(k);
    assert s[..6] == "DIO_EF" && s[6] == ('0' as int + k) as char;
  }

  /** The `STREAM_CLOCK_SOURCE` value for `stream_clock`: 0 internal, 2 external. */
  function ClockSource(v: PyValue): (r: Result<real, SettingsError>)
    ensures r.Ok? <==> v == PyStr("internal") || v == PyStr("external")
    ensures r.Ok? ==> r.value == (if v == PyStr("internal") then 0.0 else 2.0)
    ensures r.Err? ==> r.error == ClockValueError
  {
    if v == PyStr("internal") then Ok(0.0)
    else if v == PyStr("external") then Ok(2.0)
    else Err(ClockValueError)
  }

  /** The register writes a call issued and the exception it ended with, if any; writes before the exception stay done. */
  datatype SettingsRun = SettingsRun(writes: seq<Write>, error: Option<SettingsError>)

  /** Prepends a write done before the rest of the run. */
  function Then(w: Write, rest: SettingsRun): SettingsRun
  {
    SettingsRun([w] + rest.writes, rest.error)
  }

  /** Logging a write and then the rest of a run logs the run that starts with that write. */
  lemma ThenAppend(log: seq<Write>, w: Write, rest: SettingsRun)
    ensures log + Then(w, rest).writes == (log + [w]) + rest.writes && Then(w, rest).error == rest.error
  {
  }

  /**
   * `LabjackReader.modify_settings` as written, from keyword `i` on;
   * `bound` says whether an earlier keyword assigned `error`. A boolean
   * keyword looks its value up under the register name and so raises
   * KeyError; a keyword the method does not know reads `error` and raises
   * when nothing assigned it yet.
   */
  function DeviceSettingsFrom(kwargs: seq<(string, PyValue)>, i: nat, bound: bool): (run: SettingsRun)
    requires i <= |kwargs|
    ensures |run.writes| <= |kwargs| - i
    decreases |kwargs| - i
  {
    if i == |kwargs| then SettingsRun([], None)
    else
      var (kwarg, value) := kwargs[i];
      if BooleanRegister(kwarg).Some? then SettingsRun([], Some(KeyError(BooleanRegister(kwarg).value)))
      else if kwarg == "triggered_stream" then
        match TriggerIndex(value)
        case Err(e) => SettingsRun([], Some(e))
        case Ok(index) => Then(Write("STREAM_TRIGGER_INDEX", index), DeviceSettingsFrom(kwargs, i + 1, true))
      else if kwarg == "stream_clock" then
        match ClockSource(value)
        case Err(e) => SettingsRun([], Some(e))
        case Ok(source) => Then(Write("STREAM_CLOCK_SOURCE", source), DeviceSettingsFrom(kwargs, i + 1, true))
      else if bound then DeviceSettingsFrom(kwargs, i + 1, bound)
      else SettingsRun([], Some(UnboundError))
  }

  function DeviceSettings(kwargs: seq<(string, PyValue)>): SettingsRun
  {
    DeviceSettingsFrom(kwargs, 0, false)
  }

  /** A boolean keyword such as `led_on` never reaches the device: the call raises KeyError and writes nothing. */
  lemma BooleanSettingRaises(kwarg: string, value: PyValue, rest: seq<(string, PyValue)>)
    requires BooleanRegister(kwarg).Some?
    ensures DeviceSettings([(kwarg, value)] + rest) == SettingsRun([], Some(KeyError(BooleanRegister(kwarg).value)))
  {
  }

  /** The concrete case: `modify_settings(led_on=True)` raises instead of turning the LED on. */
  lemma LedOnRaises()
    ensures DeviceSettings([("led_on", PyBool(true))]).error == Some(KeyError("POWER_LED"))
    ensures DeviceSettings([("led_on", PyBool(true))]).writes == []
  {
  }

  /** `modify_settings` as evidently intended: a boolean keyword writes 1.0 or 0.0 to its power register by its own value. */
  function DeviceSettingsIntendedFrom(kwargs: seq<(string, PyValue)>, i: nat, bound: bool): (run: SettingsRun)
    requires i <= |kwargs|
    ensures |run.writes| <= |kwargs| - i
    decreases |kwargs| - i
  {
    if i == |kwargs| then SettingsRun([], None)
    else
      var (kwarg, value) := kwargs[i];
      if BooleanRegister(kwarg).Some? then
        Then(Write(BooleanRegister(kwarg).value, if Truthy(value) then 1.0 else 0.0), DeviceSettingsIntendedFrom(kwargs, i + 1, true))
      else if kwarg == "triggered_stream" then
        match TriggerIndex(value)
        case Err(e) => SettingsRun([], Some(e))
        case Ok(index) => Then(Write("STREAM_TRIGGER_INDEX", index), DeviceSettingsIntendedFrom(kwargs, i + 1, true))
      else if kwarg == "stream_clock" then
        match ClockSource(value)
        case Err(e) => SettingsRun([], Some(e))
        case Ok(source) => Then(Write("STREAM_CLOCK_SOURCE", source), DeviceSettingsIntendedFrom(kwargs, i + 1, true))
      else if bound then DeviceSettingsIntendedFrom(kwargs, i + 1, bound)
      else SettingsRun([], Some(UnboundError))
  }

  function DeviceSettingsIntended(kwargs: seq<(string, PyValue)>): SettingsRun
  {
    DeviceSettingsIntendedFrom(kwargs, 0, false)
  }

  /** In the corrected method a boolean keyword writes its power register and raises nothing. */
  lemma BooleanSettingWritesIntended(kwarg: string, value: PyValue)
    requires BooleanRegister(kwarg).Some?
    ensures DeviceSettingsIntended([(kwarg, value)])
         == SettingsRun([Write(BooleanRegister(kwarg).value, if Truthy(value) then 1.0 else 0.0)], None)
  {
    assert DeviceSettingsIntendedFrom([(kwarg, value)], 1, true) == SettingsRun([], None);
  }

  /** The correction changes nothing for calls without boolean keywords. */
  lemma {:induction false} IntendedAgreesWithoutBooleans(kwargs: seq<(string, PyValue)>, i: nat, bound: bool)
    requires i <= |kwargs|
    requires forall j :: i <= j < |kwargs| ==> BooleanRegister(kwargs[j].0).None?
    ensures DeviceSettingsIntendedFrom(kwargs, i, bound) == DeviceSettingsFrom(kwargs, i, bound)
    decreases |kwargs| - i
  {
    if i < |kwargs| {
      var kwarg := kwargs[i].0;
      if kwarg == "triggered_stream" || kwarg == "stream_clock" {
        IntendedAgreesWithoutBooleans(kwargs, i + 1, true);
      } else if bound {
        IntendedAgreesWithoutBooleans(kwargs, i + 1, bound);
      }
    }
  }

  /** The device end of `LabjackReader`: `log` records the register writes issued through its handle. */
  class Device {
    var log: seq<Write>

    constructor()
      ensures log == []
    {
      log := [];
    }

    /** `LabjackReader.modify_settings` as written: writes in keyword order until the first exception. */
    method ModifySettings(kwargs: seq<(string, PyValue)>) returns (error: Option<SettingsError>)
      modifies this
      ensures log == old(log) + DeviceSettings(kwargs).writes
      ensures error == DeviceSettings(kwargs).error
    {
      var i := 0;
      var bound := false;
      while i < |kwargs|
        invariant 0 <= i <= |kwargs|
        invariant old(log) + DeviceSettings(kwargs).writes == log + DeviceSettingsFrom(kwargs, i, bound).writes
        invariant DeviceSettings(kwargs).error == DeviceSettingsFrom(kwargs, i, bound).error
        decreases |kwargs| - i
      {
        var (kwarg, value) := kwargs[i];
        var register := BooleanRegister(kwarg);
        if register.Some? {
          return Some(KeyError(register.value));
        }
        if kwarg == "triggered_stream" {
          var index := TriggerIndex(value);
          if index.Err? {
            return Some(index.error);
          }
          ThenAppend(log, Write("STREAM_TRIGGER_INDEX", index.value), DeviceSettingsFrom(kwargs, i + 1, true));
          log := log + [Write("STREAM_TRIGGER_INDEX", index.value)];
          bound := true;
        } else if kwarg == "stream_clock" {
          var source := ClockSource(value);
          if source.Err? {
            return Some(source.error);
          }
          ThenAppend(log, Write("STREAM_CLOCK_SOURCE", source.value), DeviceSettingsFrom(kwargs, i + 1, true));
          log := log + [Write("STREAM_CLOCK_SOURCE", source.value)];
          bound := true;
        } else if !bound {
          return Some(UnboundError);
        }
        i := i + 1;
      }
      return None;
    }
  }

  // ---------------------------------------------------------------------
  // _setup through modify_settings
  // ---------------------------------------------------------------------

  /**
   * The device writes of build/lib's `_setup`: on a T7, `triggered_stream=None`
   * and `stream_clock="internal"` through `modify_settings`, then the same
   * stream configuration frames.
   */
  function SetupWritesViaSettings(deviceType: string, inputs: seq<string>, maxVoltages: seq<real>,
                                  streamSetting: real, resolution: real): seq<Write>
    requires |inputs| == |maxVoltages|
  {
    var frames := Controller.Pair(Controller.StreamConfigNames(inputs),
                                  Controller.StreamConfigValues(maxVoltages, streamSetting, resolution));
    if deviceType == "T7" then
      DeviceSettings([("triggered_stream", PyNone)]).writes
        + DeviceSettings([("stream_clock", PyStr("internal"))]).writes
        + frames
    else frames
  }

  /**
   * Routing `_setup` through the settings methods issues exactly the writes
   * labjackcontroller's `_setup` issues directly, and the library setting
   * it turns off is the same.
   */
  lemma SetupWritesAgree(deviceType: string, inputs: seq<string>, maxVoltages: seq<real>,
                         streamSetting: real, resolution: real)
    requires |inputs| == |maxVoltages|
    ensures SetupWritesViaSettings(deviceType, inputs, maxVoltages, streamSetting, resolution)
         == Controller.SetupWrites(deviceType, inputs, maxVoltages, streamSetting, resolution)
    ensures DeviceSettings([("triggered_stream", PyNone)]).error == None
    ensures DeviceSettings([("stream_clock", PyStr("internal"))]).error == None
    ensures LibraryWrites([("retry_on_transaction_err", PyBool(false))]) == [Controller.RetryOff]
  {
    TriggerOffRun();
    ClockInternalRun();
    RetryOffWrites();
    var frames := Controller.Pair(Controller.StreamConfigNames(inputs),
                                  Controller.StreamConfigValues(maxVoltages, streamSetting, resolution));
    assert [Write("STREAM_TRIGGER_INDEX", 0.0)] + [Write("STREAM_CLOCK_SOURCE", 0.0)] + frames
        == [Write("STREAM_TRIGGER_INDEX", 0.0), Write("STREAM_CLOCK_SOURCE", 0.0)] + frames;
  }

  lemma TriggerOffRun()
    ensures DeviceSettings([("triggered_stream", PyNone)]) == SettingsRun([Write("STREAM_TRIGGER_INDEX", 0.0)], None)
  {
    assert DeviceSettingsFrom([("triggered_stream", PyNone)], 1, true) == SettingsRun([], None);
  }

  lemma ClockInternalRun()
    ensures DeviceSettings([("stream_clock", PyStr("internal"))]) == SettingsRun([Write("STREAM_CLOCK_SOURCE", 0.0)], None)
  {
    assert DeviceSettingsFrom([("stream_clock", PyStr("internal"))], 1, true) == SettingsRun([], None);
  }

  lemma RetryOffWrites()
    ensures LibraryWrites([("retry_on_transaction_err", PyBool(false))]) == [Controller.RetryOff]
  {
    var retry: seq<(string, PyValue)> := [("retry_on_transaction_err", PyBool(false))];
    assert LibraryWrites(retry[1..]) == [];
  }

  // ---------------------------------------------------------------------
  // __init__ argument guard
  // ---------------------------------------------------------------------

  /** The guard of `__init__` as written: raise unless all three are strings, or the device type differs from "T7" or from "T4". */
  predicate InitRejects(deviceType: PyValue, connection: PyValue, identifier: PyValue)
  {
    !((deviceType.PyStr? && connection.PyStr? && identifier.PyStr?)
      || (deviceType != PyStr("T7") || deviceType != PyStr("T4")))
  }

  /** No value differs from neither "T7" nor "T4", so the guard never raises, whatever the arguments. */
  lemma InitNeverRejects(deviceType: PyValue, connection: PyValue, identifier: PyValue)
    ensures !InitRejects(deviceType, connection, identifier)
  {
  }

  /** Concretely, a numeric device type and missing connection and identifier get through. */
  lemma InitAcceptsNonStrings()
    ensures !InitRejects(PyInt(7), PyNone, PyNone)
    ensures !InitRejects(PyStr("U3"), PyStr("ANY"), PyStr("ANY"))
  {
  }

  /** The guard as evidently intended: raise unless all three are strings and the device type is "T7" or "T4". */
  predicate InitRejectsIntended(deviceType: PyValue, connection: PyValue, identifier: PyValue)
  {
    !(deviceType.PyStr? && connection.PyStr? && identifier.PyStr?
      && (deviceType == PyStr("T7") || deviceType == PyStr("T4")))
  }

  /** The intended guard lets through exactly the T7 and T4 with string connection and identifier, and turns away what the written one lets pass. */
  lemma InitIntendedGuard(deviceType: PyValue, connection: PyValue, identifier: PyValue)
    ensures !InitRejectsIntended(deviceType, connection, identifier)
      <==> deviceType.PyStr? && deviceType.s in {"T7", "T4"} && connection.PyStr? && identifier.PyStr?
    ensures InitRejectsIntended(PyInt(7), PyNone, PyNone) && InitRejectsIntended(PyStr("U3"), PyStr("ANY"), PyStr("ANY"))
  {
  }
}
