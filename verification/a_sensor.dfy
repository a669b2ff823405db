/**
 * The state every sensor shares: the two output buffers the process
 * handlers fill, the callback registered at launch, and the hand-over of
 * one buffer when the process exits. Starting the process belongs to the
 * command executor, which is outside the model: a launch is recorded as the
 * request it makes.
 */
module ASensor {
  import opened Wrappers
  import opened Seqs
  import opened Dictionaries

  /** A request to the command executor to start a tool. */
  datatype Launch = Launch(executable: string, arguments: string, environment: Dict)

  /** What the exit handler passes to the callback: the sensor key and the chosen buffer. */
  datatype Handover = Handover(key: string, lines: seq<string>)

  /** One event of the running process; None is a DataReceivedEventArgs whose Data is null. */
  datatype ProcessEvent = Stdout(data: Option<string>) | Stderr(data: Option<string>)

  /** string.IsNullOrEmpty negated: the data a handler keeps. */
  function Kept(data: Option<string>): Option<string> {
    if data.Some? && data.value != "" then data else None
  }

  /** The line a stdout event adds to the output buffer. */
  function OutputLine(e: ProcessEvent): Option<string> {
    if e.Stdout? then Kept(e.data) else None
  }

  /** The line a stderr event adds to the error buffer. */
  function ErrorLine(e: ProcessEvent): Option<string> {
    if e.Stderr? then Kept(e.data) else None
  }

  class Sensor {
    const repositoryKey: string
    const useStdout: bool

    var command: string
    var args: string
    var environment: Dict

    var commandLineOutput: seq<string>
    var commandLineError: seq<string>

    /** Whether LaunchSensor has stored a callback; the exit handler calls through it. */
    var callbackSet: bool

    /** The requests made to the command executor, oldest first. */
    var launched: seq<Launch>

    /** A sensor with empty buffers and no callback. */
    constructor(repositoryKey: string, useStdout: bool)
      ensures this.repositoryKey == repositoryKey && this.useStdout == useStdout
      ensures commandLineOutput == [] && commandLineError == []
      ensures !callbackSet && launched == []
      ensures command == "" && args == "" && environment == []
    {
      this.repositoryKey := repositoryKey;
      this.useStdout := useStdout;
      command := "";
      args := "";
      environment := [];
      commandLineOutput := [];
      commandLineError := [];
      callbackSet := false;
      launched := [];
    }

    /** The key the sensor was built with. */
    function GetKey(): (key: string)
      ensures key == repositoryKey
    {
      repositoryKey
    }

    /** Launch with an explicit command line. */
    method LaunchWith(executable: string, arguments: string, env: Dict)
      modifies this
      ensures callbackSet && launched == old(launched) + [Launch(executable, arguments, env)]
      ensures commandLineOutput == old(commandLineOutput) && commandLineError == old(commandLineError)
      ensures command == old(command) && args == old(args) && environment == old(environment)
    {
      callbackSet := true;
      launched := launched + [Launch(executable, arguments, env)];
    }

    /** Launch on one file: the file path is appended to the configured arguments after a space. */
    method LaunchSensor(filePath: string)
      modifies this
      ensures callbackSet && launched == old(launched) + [Launch(command, args + " " + filePath, environment)]
      ensures commandLineOutput == old(commandLineOutput) && commandLineError == old(commandLineError)
      ensures command == old(command) && args == old(args) && environment == old(environment)
    {
      callbackSet := true;
      launched := launched + [Launch(command, args + " " + filePath, environment)];
    }

    /** A stdout line is kept when it is neither null nor empty; stderr is untouched. */
    method ProcessOutputDataReceived(data: Option<string>)
      modifies this
      ensures commandLineOutput == old(commandLineOutput) + (if Kept(data).Some? then [Kept(data).value] else [])
      ensures commandLineError == old(commandLineError)
      ensures callbackSet == old(callbackSet) && launched == old(launched)
      ensures command == old(command) && args == old(args) && environment == old(environment)
    {
      if data.Some? && data.value != "" {
        commandLineOutput := commandLineOutput + [data.value];
      }
    }

    /** A stderr line is kept when it is neither null nor empty; stdout is untouched. */
    method ProcessErrorDataReceived(data: Option<string>)
      modifies this
      ensures commandLineError == old(commandLineError) + (if Kept(data).Some? then [Kept(data).value] else [])
      ensures commandLineOutput == old(commandLineOutput)
      ensures callbackSet == old(callbackSet) && launched == old(launched)
      ensures command == old(command) && args == old(args) && environment == old(environment)
    {
      if data.Some? && data.value != "" {
        commandLineError := commandLineError + [data.value];
      }
    }

    /**
     * The exit handler: the callback receives the key and the stdout buffer
     * when the sensor reads stdout, the stderr buffer otherwise. Without a
     * registered callback the call throws.
     */
    method EventHandlerFunction() returns (r: Result<Handover>)
      ensures r.Ok? <==> callbackSet
      ensures r.Ok? ==> r.value.key == repositoryKey
      ensures r.Ok? ==> r.value.lines == if useStdout then commandLineOutput else commandLineError
    {
      if !callbackSet {
        return Throws(NullReference);
      }
      r := Ok(Handover(repositoryKey, if useStdout then commandLineOutput else commandLineError));
    }

    /**
     * The executor's event pump: each event goes to the handler of its
     * stream, in arrival order.
     */
    method Deliver(events: seq<ProcessEvent>)
      modifies this
      ensures commandLineOutput == old(commandLineOutput) + FilterMap(events, OutputLine)
      ensures commandLineError == old(commandLineError) + FilterMap(events, ErrorLine)
      ensures callbackSet == old(callbackSet) && launched == old(launched)
      ensures command == old(command) && args == old(args) && environment == old(environment)
    {
      for i := 0 to |events|
        invariant commandLineOutput == old(commandLineOutput) + FilterMap(events[..i], OutputLine)
        invariant commandLineError == old(commandLineError) + FilterMap(events[..i], ErrorLine)
        invariant callbackSet == old(callbackSet) && launched == old(launched)
        invariant command == old(command) && args == old(args) && environment == old(environment)
      {
        ghost var out := FilterMap(events[..i], OutputLine);
        ghost var err := FilterMap(events[..i], ErrorLine);
        FilterMapStep(events, i, OutputLine, out, OutputLine(events[i]));
        FilterMapStep(events, i, ErrorLine, err, ErrorLine(events[i]));
        AppendOption(old(commandLineOutput), out, OutputLine(events[i]));
        AppendOption(old(commandLineError), err, ErrorLine(events[i]));
        match events[i]
        case Stdout(data) => ProcessOutputDataReceived(data);
        case Stderr(data) => ProcessErrorDataReceived(data);
      }
      assert events[..|events|] == events;
    }
  }

  /** No event adds an empty line, and no event of the other stream adds anything. */
  lemma {:induction false} BufferLines(events: seq<ProcessEvent>)
    ensures forall line :: line in FilterMap(events, OutputLine) ==> line != "" && Stdout(Some(line)) in events
    ensures forall line :: line in FilterMap(events, ErrorLine) ==> line != "" && Stderr(Some(line)) in events
  {
    forall line | line in FilterMap(events, OutputLine)
      ensures line != "" && Stdout(Some(line)) in events
    {
      FilterMapMember(events, OutputLine, line);
      var i :| 0 <= i < |events| && OutputLine(events[i]) == Some(line);
      assert events[i] == Stdout(Some(line));
    }
    forall line | line in FilterMap(events, ErrorLine)
      ensures line != "" && Stderr(Some(line)) in events
    {
      FilterMapMember(events, ErrorLine, line);
      var i :| 0 <= i < |events| && ErrorLine(events[i]) == Some(line);
      assert events[i] == Stderr(Some(line));
    }
  }

  /** A run of a fresh sensor: launch on a file, the process's events, then its exit. */
  method RunOnFile(repositoryKey: string, useStdout: bool, filePath: string, events: seq<ProcessEvent>)
    returns (r: Result<Handover>)
    ensures r.Ok? && r.value.key == repositoryKey
    ensures r.value.lines == if useStdout then FilterMap(events, OutputLine) else FilterMap(events, ErrorLine)
  {
    var sensor := new Sensor(repositoryKey, useStdout);
    sensor.LaunchSensor(filePath);
    sensor.Deliver(events);
    r := sensor.EventHandlerFunction();
    assert [] + FilterMap(events, OutputLine) == FilterMap(events, OutputLine);
    assert [] + FilterMap(events, ErrorLine) == FilterMap(events, ErrorLine);
  }
}
