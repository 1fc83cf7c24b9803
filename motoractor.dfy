/**
 * The actor controlling a Trinamic motor card: motors are addressed by number or by a name
 * from the name table, configurations are kept per motor number, moves in units are
 * converted to microsteps with the stored configuration, and every move is refused while
 * the supply voltage is below 10 V.
 *
 * The card itself is not modelled: the commands sent to it are recorded in order, and the
 * reading of its analog input 8 is a parameter of the moving methods.
 */
module MotorActor {
  import opened Wrappers
  import opened MotorUtils

  /** A motor argument: its number, or a name to look up. */
  datatype MotorRef = Number(n: int) | Name(name: string)

  /** A motor configuration dictionary; a missing key is `None`. */
  datatype MotorConfig = MotorConfig(
    motorNumber: Option<int>,
    stepResolution: Option<nat>,
    stepCount: Option<int>,
    unitSize: Option<real>,
    unitOffset: Option<real>)

  datatype ActorError =
    | UnknownMotorName(name: string)          // ValueError of `_get_motor_number`
    | InsufficientConfiguration(motor: int)   // ValueError of `move_to_units` / `move_by_units`
    | LowVoltage(voltage: real)               // SystemError of `_voltage_check`
    | Arithmetic(error: ArithmeticError)      // ZeroDivisionError of the conversion
    | CardFailure                             // any error of `configureMotor` but KeyError
    | MissingConfiguration(motor: int)        // KeyError of `get_actual_units`

  /** A command sent to the card. */
  datatype Command =
    | MoveToCommand(motor: int, position: int, velocity: Option<int>)
    | MoveByCommand(motor: int, difference: int, velocity: Option<int>)
    | RotateCommand(motor: int, speed: int)
    | StopCommand(motor: int)
    | SetPositionCommand(motor: int, steps: int)

  /** The lowest supply voltage at which the motors may move. */
  const MinVoltage: real := 10.0

  /** `_get_voltage`: analog input 8 is ten times the supply voltage. */
  function Voltage(analogInput: real): real {
    analogInput / 10.0
  }

  /** `_get_motor_number`: a number is used as it is, a name is looked up. */
  function MotorNumber(motorDict: map<string, int>, motor: MotorRef): (r: Result<int, ActorError>)
    ensures motor.Number? ==> r == Ok(motor.n)
    ensures motor.Name? && motor.name in motorDict ==> r == Ok(motorDict[motor.name])
    ensures motor.Name? && motor.name !in motorDict ==> r == Err(UnknownMotorName(motor.name))
  {
    match motor
    case Number(n) => Ok(n)
    case Name(name) => if name in motorDict then Ok(motorDict[name]) else Err(UnknownMotorName(name))
  }

  /** The default answer for a motor without configuration: `{'motorNumber': motor}`. */
  function DefaultConfig(n: int): MotorConfig {
    MotorConfig(Some(n), None, None, None, None)
  }

  /** `get_configuration`: the stored configuration, or the default one. */
  function Configuration(configs: map<int, MotorConfig>, motorDict: map<string, int>, motor: MotorRef): (r: Result<MotorConfig, ActorError>)
    ensures MotorNumber(motorDict, motor).Err? ==> r == Err(MotorNumber(motorDict, motor).error)
    ensures MotorNumber(motorDict, motor).Ok? ==>
      var n := MotorNumber(motorDict, motor).value;
      r == Ok(if n in configs then configs[n] else DefaultConfig(n))
  {
    match MotorNumber(motorDict, motor)
    case Err(e) => Err(e)
    case Ok(n) => Ok(if n in configs then configs[n] else DefaultConfig(n))
  }

  /** The conversion keys of a configuration, when all four are present. */
  function ConversionOf(config: MotorConfig): (r: Option<Conversion>)
    ensures r.Some? <==>
      config.stepResolution.Some? && config.stepCount.Some? && config.unitSize.Some? && config.unitOffset.Some?
  {
    if config.stepResolution.Some? && config.stepCount.Some? && config.unitSize.Some? && config.unitOffset.Some? then
      Some(Conversion(config.stepResolution.value, config.stepCount.value, config.unitSize.value, config.unitOffset.value))
    else None
  }

  /**
   * The motor number and microsteps `move_to_units` and `move_by_units` pass on: a missing
   * configuration or conversion key is `InsufficientConfiguration`.
   */
  function UnitsTarget(configs: map<int, MotorConfig>, motorDict: map<string, int>, motor: MotorRef, units: real): (r: Result<(int, int), ActorError>)
  {
    match MotorNumber(motorDict, motor)
    case Err(e) => Err(e)
    case Ok(n) =>
      if n !in configs || ConversionOf(configs[n]).None? then Err(InsufficientConfiguration(n))
      else
        match UnitsToSteps(units, ConversionOf(configs[n]).value)
        case Err(e) => Err(Arithmetic(e))
        case Ok(steps) => Ok((n, steps))
  }

  /**
   * `get_actual_units`: the card's `actual_position` reading `position` of the resolved
   * motor, converted with its stored configuration; a motor without one, or with one
   * lacking a conversion key, is the KeyError.
   */
  function ActualUnits(configs: map<int, MotorConfig>, motorDict: map<string, int>, motor: MotorRef, position: int): Result<real, ActorError> {
    match MotorNumber(motorDict, motor)
    case Err(e) => Err(e)
    case Ok(n) =>
      if n !in configs || ConversionOf(configs[n]).None? then Err(MissingConfiguration(n))
      else
        match StepsToUnits(position, ConversionOf(configs[n]).value)
        case Err(e) => Err(Arithmetic(e))
        case Ok(u) => Ok(u)
  }

  class TMCMotorActor {
    /** `configs`: the configuration of each configured motor, by number. */
    var configs: map<int, MotorConfig>
    /** `motorDict`: motor names to numbers. */
    var motorDict: map<string, int>
    /** The commands sent to the card so far. */
    var commands: seq<Command>

    constructor (names: Option<map<string, int>>)
      ensures configs == map[] && commands == []
      ensures motorDict == if names.Some? then names.value else map[]
    {
      configs := map[];
      motorDict := if names.Some? then names.value else map[];
      commands := [];
    }

    /**
     * `configure_motor`: `cardFails` says whether writing the configuration to the card
     * raised something other than KeyError (an IndexError for a motor number the card does
     * not have, a TypeError for a current that is not a number, a device error); that error
     * propagates and nothing is stored. Otherwise, KeyError included, the configuration is
     * stored under its motor number; one without a motor number is not stored.
     */
    method ConfigureMotor(config: MotorConfig, cardFails: bool) returns (raised: Option<ActorError>)
      modifies this`configs
      ensures cardFails ==> raised == Some(CardFailure) && configs == old(configs)
      ensures !cardFails ==> raised == None
      ensures !cardFails && config.motorNumber.Some? ==> configs == old(configs)[config.motorNumber.value := config]
      ensures !cardFails && config.motorNumber.None? ==> configs == old(configs)
    {
      if cardFails {
        return Some(CardFailure);
      }
      if config.motorNumber.Some? {
        configs := configs[config.motorNumber.value := config];
      }
      return None;
    }

    /** `get_configuration`. */
    method GetConfiguration(motor: MotorRef) returns (r: Result<MotorConfig, ActorError>)
      ensures r == Configuration(configs, motorDict, motor)
    {
      var number := MotorNumber(motorDict, motor);
      if number.Err? {
        return Err(number.error);
      }
      var n := number.value;
      if n in configs {
        return Ok(configs[n]);
      }
      return Ok(DefaultConfig(n));
    }

    /** `get_actual_units`, with the card's position reading as `position`. */
    method GetActualUnits(motor: MotorRef, position: int) returns (r: Result<real, ActorError>)
      ensures r == ActualUnits(configs, motorDict, motor, position)
    {
      var number := MotorNumber(motorDict, motor);
      if number.Err? {
        return Err(number.error);
      }
      var n := number.value;
      if n !in configs {
        return Err(MissingConfiguration(n));
      }
      var conversion := ConversionOf(configs[n]);
      if conversion.None? {
        return Err(MissingConfiguration(n));
      }
      var units := StepsToUnits(position, conversion.value);
      if units.Err? {
        return Err(Arithmetic(units.error));
      }
      return Ok(units.value);
    }

    /** `stop`: the resolved motor gets a stop command. */
    method Stop(motor: MotorRef) returns (r: Option<ActorError>)
      modifies this`commands
      ensures MotorNumber(motorDict, motor).Err? ==>
        r == Some(MotorNumber(motorDict, motor).error) && commands == old(commands)
      ensures MotorNumber(motorDict, motor).Ok? ==>
        r.None? && commands == old(commands) + [StopCommand(MotorNumber(motorDict, motor).value)]
    {
      var number := MotorNumber(motorDict, motor);
      if number.Err? {
        return Some(number.error);
      }
      commands := commands + [StopCommand(number.value)];
      return None;
    }

    /**
     * `set_actual_position`: the resolved motor is stopped before its position register
     * is written; there is no voltage check.
     */
    method SetActualPosition(motor: MotorRef, steps: int) returns (r: Option<ActorError>)
      modifies this`commands
      ensures MotorNumber(motorDict, motor).Err? ==>
        r == Some(MotorNumber(motorDict, motor).error) && commands == old(commands)
      ensures MotorNumber(motorDict, motor).Ok? ==>
        var n := MotorNumber(motorDict, motor).value;
        r.None? && commands == old(commands) + [StopCommand(n), SetPositionCommand(n, steps)]
    {
      var number := MotorNumber(motorDict, motor);
      if number.Err? {
        return Some(number.error);
      }
      r := Stop(Number(number.value));
      commands := commands + [SetPositionCommand(number.value, steps)];
    }

    /** `move_to`: the voltage check comes first, then the motor is resolved. */
    method MoveTo(motor: MotorRef, position: int, velocity: Option<int>, analogInput: real) returns (r: Option<ActorError>)
      modifies this`commands
      ensures Voltage(analogInput) < MinVoltage ==> r == Some(LowVoltage(Voltage(analogInput))) && commands == old(commands)
      ensures Voltage(analogInput) >= MinVoltage && MotorNumber(motorDict, motor).Err? ==>
        r == Some(MotorNumber(motorDict, motor).error) && commands == old(commands)
      ensures Voltage(analogInput) >= MinVoltage && MotorNumber(motorDict, motor).Ok? ==>
        r.None? && commands == old(commands) + [MoveToCommand(MotorNumber(motorDict, motor).value, position, velocity)]
    {
      var voltage := Voltage(analogInput);
      if voltage < MinVoltage {
        return Some(LowVoltage(voltage));
      }
      var number := MotorNumber(motorDict, motor);
      if number.Err? {
        return Some(number.error);
      }
      commands := commands + [MoveToCommand(number.value, position, velocity)];
      return None;
    }

    /** `move_by`: as `move_to`, relative to the current position. */
    method MoveBy(motor: MotorRef, difference: int, velocity: Option<int>, analogInput: real) returns (r: Option<ActorError>)
      modifies this`commands
      ensures Voltage(analogInput) < MinVoltage ==> r == Some(LowVoltage(Voltage(analogInput))) && commands == old(commands)
      ensures Voltage(analogInput) >= MinVoltage && MotorNumber(motorDict, motor).Err? ==>
        r == Some(MotorNumber(motorDict, motor).error) && commands == old(commands)
      ensures Voltage(analogInput) >= MinVoltage && MotorNumber(motorDict, motor).Ok? ==>
        r.None? && commands == old(commands) + [MoveByCommand(MotorNumber(motorDict, motor).value, difference, velocity)]
    {
      var voltage := Voltage(analogInput);
      if voltage < MinVoltage {
        return Some(LowVoltage(voltage));
      }
      var number := MotorNumber(motorDict, motor);
      if number.Err? {
        return Some(number.error);
      }
      commands := commands + [MoveByCommand(number.value, difference, velocity)];
      return None;
    }

    /** `rotate`: turn continuously at `speed`, after the voltage check. */
    method Rotate(motor: MotorRef, speed: int, analogInput: real) returns (r: Option<ActorError>)
      modifies this`commands
      ensures Voltage(analogInput) < MinVoltage ==> r == Some(LowVoltage(Voltage(analogInput))) && commands == old(commands)
      ensures Voltage(analogInput) >= MinVoltage && MotorNumber(motorDict, motor).Err? ==>
        r == Some(MotorNumber(motorDict, motor).error) && commands == old(commands)
      ensures Voltage(analogInput) >= MinVoltage && MotorNumber(motorDict, motor).Ok? ==>
        r.None? && commands == old(commands) + [RotateCommand(MotorNumber(motorDict, motor).value, speed)]
    {
      var voltage := Voltage(analogInput);
      if voltage < MinVoltage {
        return Some(LowVoltage(voltage));
      }
      var number := MotorNumber(motorDict, motor);
      if number.Err? {
        return Some(number.error);
      }
      commands := commands + [RotateCommand(number.value, speed)];
      return None;
    }

    /**
     * `move_to_units`: the motor is resolved and the position converted first; only then
     * `move_to` checks the voltage.
     */
    method MoveToUnits(motor: MotorRef, position: real, velocity: Option<int>, analogInput: real) returns (r: Option<ActorError>)
      modifies this`commands
      ensures UnitsTarget(configs, motorDict, motor, position).Err? ==>
        r == Some(UnitsTarget(configs, motorDict, motor, position).error) && commands == old(commands)
      ensures UnitsTarget(configs, motorDict, motor, position).Ok? && Voltage(analogInput) < MinVoltage ==>
        r == Some(LowVoltage(Voltage(analogInput))) && commands == old(commands)
      ensures UnitsTarget(configs, motorDict, motor, position).Ok? && Voltage(analogInput) >= MinVoltage ==>
        var (n, steps) := UnitsTarget(configs, motorDict, motor, position).value;
        r.None? && commands == old(commands) + [MoveToCommand(n, steps, velocity)]
    {
      var target := UnitsTarget(configs, motorDict, motor, position);
      if target.Err? {
        return Some(target.error);
      }
      r := MoveTo(Number(target.value.0), target.value.1, velocity, analogInput);
    }

    /** `move_by_units`: as `move_to_units`, for a relative move. */
    method MoveByUnits(motor: MotorRef, difference: real, velocity: Option<int>, analogInput: real) returns (r: Option<ActorError>)
      modifies this`commands
      ensures UnitsTarget(configs, motorDict, motor, difference).Err? ==>
        r == Some(UnitsTarget(configs, motorDict, motor, difference).error) && commands == old(commands)
      ensures UnitsTarget(configs, motorDict, motor, difference).Ok? && Voltage(analogInput) < MinVoltage ==>
        r == Some(LowVoltage(Voltage(analogInput))) && commands == old(commands)
      ensures UnitsTarget(configs, motorDict, motor, difference).Ok? && Voltage(analogInput) >= MinVoltage ==>
        var (n, steps) := UnitsTarget(configs, motorDict, motor, difference).value;
        r.None? && commands == old(commands) + [MoveByCommand(n, steps, velocity)]
    {
      var target := UnitsTarget(configs, motorDict, motor, difference);
      if target.Err? {
        return Some(target.error);
      }
      r := MoveBy(Number(target.value.0), target.value.1, velocity, analogInput);
    }

    /** `get_motor_dict`. */
    method GetMotorDict() returns (d: map<string, int>)
      ensures d == motorDict
    {
      d := motorDict;
    }

    /** `set_motor_dict`: the name table is replaced as a whole. */
    method SetMotorDict(d: map<string, int>)
      modifies this`motorDict
      ensures motorDict == d
    {
      motorDict := d;
    }
  }

  // ---------------------------------------------------------------- properties

  /** A known name addresses the same motor as its number does. */
  lemma NameIsNumber(motorDict: map<string, int>, configs: map<int, MotorConfig>, name: string)
    requires name in motorDict
    ensures MotorNumber(motorDict, Name(name)) == MotorNumber(motorDict, Number(motorDict[name]))
    ensures Configuration(configs, motorDict, Name(name)) == Configuration(configs, motorDict, Number(motorDict[name]))
  {
  }

  /** Storing a configuration is what `get_configuration` returns for that motor afterwards. */
  lemma StoredConfigurationReturned(configs: map<int, MotorConfig>, motorDict: map<string, int>, config: MotorConfig)
    requires config.motorNumber.Some?
    ensures var stored := configs[config.motorNumber.value := config];
      Configuration(stored, motorDict, Number(config.motorNumber.value)) == Ok(config)
  {
  }

  /** The default configuration carries no conversion, so moves in units need a stored one. */
  lemma UnconfiguredMotorRefused(configs: map<int, MotorConfig>, motorDict: map<string, int>, n: int, units: real)
    requires n !in configs
    ensures ConversionOf(DefaultConfig(n)).None?
    ensures UnitsTarget(configs, motorDict, Number(n), units) == Err(InsufficientConfiguration(n))
  {
  }

  /** A configuration lacking any of the four conversion keys is refused. */
  lemma IncompleteConfigurationRefused(configs: map<int, MotorConfig>, motorDict: map<string, int>, n: int, units: real)
    requires n in configs
    requires configs[n].stepResolution.None? || configs[n].stepCount.None? || configs[n].unitSize.None? || configs[n].unitOffset.None?
    ensures UnitsTarget(configs, motorDict, Number(n), units) == Err(InsufficientConfiguration(n))
  {
  }

  /** With a complete configuration the units are converted by `unitsToSteps`. */
  lemma UnitsTargetConverts(configs: map<int, MotorConfig>, motorDict: map<string, int>, motor: MotorRef, units: real)
    requires MotorNumber(motorDict, motor).Ok?
    requires var n := MotorNumber(motorDict, motor).value; n in configs && ConversionOf(configs[n]).Some?
    ensures var n := MotorNumber(motorDict, motor).value;
      var c := ConversionOf(configs[n]).value;
      && (UnitsToSteps(units, c).Ok? ==> UnitsTarget(configs, motorDict, motor, units) == Ok((n, UnitsToSteps(units, c).value)))
      && (UnitsToSteps(units, c).Err? ==> UnitsTarget(configs, motorDict, motor, units) == Err(Arithmetic(ZeroDivision)))
  {
  }

  /** A position read back in units is moved to at exactly its microsteps. */
  lemma UnitsTargetRoundTrip(configs: map<int, MotorConfig>, motorDict: map<string, int>, n: int, microsteps: int)
    requires n in configs && ConversionOf(configs[n]).Some?
    requires ConversionOf(configs[n]).value.stepCount != 0 && ConversionOf(configs[n]).value.unitSize != 0.0
    ensures var c := ConversionOf(configs[n]).value;
      StepsToUnits(microsteps, c).Ok? &&
      UnitsTarget(configs, motorDict, Number(n), StepsToUnits(microsteps, c).value) == Ok((n, microsteps))
  {
    StepsUnitsRoundTrip(microsteps, ConversionOf(configs[n]).value);
  }

  /**
   * The position can be read in units exactly when the resolved motor has a complete
   * stored configuration with a non-zero step count.
   */
  lemma ActualUnitsDefined(configs: map<int, MotorConfig>, motorDict: map<string, int>, motor: MotorRef, position: int)
    requires MotorNumber(motorDict, motor).Ok?
    ensures var n := MotorNumber(motorDict, motor).value;
      ActualUnits(configs, motorDict, motor, position).Ok? <==>
        n in configs && ConversionOf(configs[n]).Some? && ConversionOf(configs[n]).value.stepCount != 0
    ensures var n := MotorNumber(motorDict, motor).value;
      n !in configs ==> ActualUnits(configs, motorDict, motor, position) == Err(MissingConfiguration(n))
  {
  }

  /**
   * Reading the position in units and moving to those units targets the position read,
   * for a motor whose conversion is invertible.
   */
  lemma ActualUnitsMovedTo(configs: map<int, MotorConfig>, motorDict: map<string, int>, motor: MotorRef, position: int)
    requires MotorNumber(motorDict, motor).Ok?
    requires var n := MotorNumber(motorDict, motor).value; n in configs && ConversionOf(configs[n]).Some?
    requires var c := ConversionOf(configs[MotorNumber(motorDict, motor).value]).value; c.stepCount != 0 && c.unitSize != 0.0
    ensures ActualUnits(configs, motorDict, motor, position).Ok?
    ensures UnitsTarget(configs, motorDict, motor, ActualUnits(configs, motorDict, motor, position).value) ==
      Ok((MotorNumber(motorDict, motor).value, position))
  {
    var n := MotorNumber(motorDict, motor).value;
    UnitsTargetRoundTrip(configs, motorDict, n, position);
  }

  /** The voltage gate: analog readings below 100 stop every move. */
  lemma VoltageThreshold(analogInput: real)
    ensures Voltage(analogInput) < MinVoltage <==> analogInput < 100.0
  {
  }
}
