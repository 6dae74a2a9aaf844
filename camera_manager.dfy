// The camera manager: one processor, stop event and worker thread per running
// camera, started and stopped by camera id.

module Cameras {
  import opened Common
  import opened Config
  import opened VideoProcessing
  import Alarm

  /** The event a processor's loop watches; set() asks the loop to end. */
  class StopEvent {
    var isSet: bool

    constructor()
      ensures !isSet
    {
      isSet := false;
    }

    method Set()
      modifies this
      ensures isSet
    {
      isSet := true;
    }
  }

  /** The thread that runs a processor's stream loop. */
  class Worker {
    const target: VideoProcessor
    var running: bool

    constructor(target: VideoProcessor)
      ensures this.target == target && !running
    {
      this.target := target;
      running := false;
    }

    method Start()
      modifies this
      ensures running
    {
      running := true;
    }

    /** join(): returns once the loop has ended. */
    method Join()
      modifies this
      ensures !running
    {
      running := false;
    }
  }

  /** Why start_camera raises: a negative id (ValueError) or a camera that is
      already running (RuntimeError). */
  datatype StartError = InvalidId | AlreadyRunning

  /** The answer of start_camera for `id` when the cameras in `running` are
      registered, `configured` cameras are configured and the processor's
      set-up succeeds exactly when `initOk`: it raises for a negative or a
      running id, answers false for an unconfigured camera or a failed set-up,
      and true when the camera starts. */
  function StartOutcome(id: int, running: set<int>, configured: nat, initOk: bool): (r: Result<bool, StartError>)
    ensures r == Err(InvalidId) <==> id < 0
    ensures r == Err(AlreadyRunning) <==> id >= 0 && id in running
    ensures r == Ok(true) <==> 0 <= id < configured && id !in running && initOk
    ensures r == Ok(false) <==> id >= 0 && id !in running && (id >= configured || !initOk)
  {
    if id < 0 then Err(InvalidId)
    else if id in running then Err(AlreadyRunning)
    else if id >= configured then Ok(false)
    else Ok(initOk)
  }

  /** A camera that was stopped can be started again: the answer no longer
      depends on whether it ran before. */
  lemma RestartAccepted(id: int, running: set<int>, configured: nat, initOk: bool)
    requires id >= 0 && id in running
    ensures StartOutcome(id, running, configured, initOk) == Err(AlreadyRunning)
    ensures StartOutcome(id, running - {id}, configured, initOk) == Ok(0 <= id < configured && initOk)
  {
  }

  class CameraManager {
    const config: SystemConfig
    var processors: map<int, VideoProcessor>
    var stopEvents: map<int, StopEvent>
    var threads: map<int, Worker>
    /** The stop events and threads the manager has created. */
    ghost var Repr: set<object>

    /** The three registries hold the same cameras, and each camera's thread
        runs that camera's processor. */
    ghost predicate Valid()
      reads this
    {
      && (forall id :: id in processors <==> id in stopEvents)
      && (forall id :: id in stopEvents <==> id in threads)
      && (forall id :: id in threads ==> threads[id].target == processors[id] && threads[id] in Repr)
      && (forall id :: id in stopEvents ==> stopEvents[id] in Repr)
    }

    constructor(config: SystemConfig)
      ensures this.config == config && Valid()
      ensures processors == map[] && stopEvents == map[] && threads == map[]
    {
      this.config := config;
      processors := map[];
      stopEvents := map[];
      threads := map[];
      Repr := {};
    }

    /** start_camera. The set-up of the processor (opening the capture,
        the hand classifier and the mixer) is the parameter `initOk`, and the
        picture size the opened capture reports is `frameSize`. On true the
        camera is registered with a new processor, a new unset stop event and
        a started thread on that processor; otherwise nothing changes. */
    method StartCamera(id: int, initOk: bool, frameSize: Option<(int, int)>) returns (r: Result<bool, StartError>)
      requires Valid()
      modifies this
      ensures Valid()
      ensures r == StartOutcome(id, old(processors.Keys), |config.cameras|, initOk)
      ensures r == Ok(true) ==>
        && id in processors
        && processors == old(processors)[id := processors[id]]
        && stopEvents == old(stopEvents)[id := stopEvents[id]]
        && threads == old(threads)[id := threads[id]]
        && fresh(processors[id]) && fresh(stopEvents[id]) && fresh(threads[id])
        && processors[id].cameraId == id && processors[id].config == config
        && !stopEvents[id].isSet && threads[id].running
        && processors[id].State() == Alarm.Idle && processors[id].lastDetection == 0.0
        && processors[id].lastDistance.None? && processors[id].cachedCrop.None?
        && processors[id].fpsCounter.history == [] && !processors[id].channel.busy
        && processors[id].channel.log == [] && processors[id].frameSize == frameSize
      ensures r != Ok(true) ==> processors == old(processors) && stopEvents == old(stopEvents) && threads == old(threads)
    {
      if id < 0 {
        return Err(InvalidId);
      }
      if id in processors {
        return Err(AlreadyRunning);
      }
      if id >= |config.cameras| {
        return Ok(false);
      }
      if !initOk {
        return Ok(false);
      }
      var stopEvent := new StopEvent();
      var processor := new VideoProcessor(id, config, frameSize);
      var thread := new Worker(processor);
      processors := processors[id := processor];
      stopEvents := stopEvents[id := stopEvent];
      threads := threads[id := thread];
      Repr := Repr + {stopEvent, thread};
      thread.Start();
      return Ok(true);
    }

    /** stop_camera: a registered camera has its stop event set, its thread
        joined, and is removed from the three registries; an unknown id is
        ignored. */
    method StopCamera(id: int)
      requires Valid()
      modifies this, if id in stopEvents then {stopEvents[id]} else {}, if id in threads then {threads[id]} else {}
      ensures Valid()
      ensures id !in processors && id !in stopEvents && id !in threads && Repr == old(Repr)
      ensures processors == old(processors) - {id} && stopEvents == old(stopEvents) - {id} && threads == old(threads) - {id}
      ensures id in old(stopEvents) ==> old(stopEvents)[id].isSet && !old(threads)[id].running
    {
      if id in stopEvents {
        var event := stopEvents[id];
        event.Set();
        if id in threads {
          var thread := threads[id];
          thread.Join();
          threads := threads - {id};
        }
        if id in processors {
          processors := processors - {id};
        }
        stopEvents := stopEvents - {id};
      }
    }

    /** stop_all: every registered camera is stopped, leaving the
        registries empty. */
    method StopAll()
      requires Valid()
      modifies this, Repr
      ensures Valid()
      ensures processors == map[] && stopEvents == map[] && threads == map[]
      ensures forall id :: id in old(stopEvents) ==> old(stopEvents)[id].isSet && !old(threads)[id].running
    {
      var ids := stopEvents.Keys;
      ghost var events := stopEvents;
      ghost var workers := threads;
      ghost var setEvents: set<StopEvent> := {};
      ghost var joined: set<Worker> := {};
      while ids != {}
        invariant Valid() && stopEvents.Keys == ids && Repr == old(Repr)
        invariant forall id :: id in stopEvents ==> stopEvents[id] == events[id]
        invariant forall id :: id in threads ==> id in workers && threads[id] == workers[id]
        invariant forall id :: id in events && id !in ids ==> events[id] in setEvents && workers[id] in joined
        invariant forall e :: e in setEvents ==> e.isSet
        invariant forall w :: w in joined ==> !w.running
        decreases ids
      {
        NoMemberEmpty(ids);
        var id :| id in ids;
        setEvents, joined := StopTracked(id, setEvents, joined);
        ids := ids - {id};
      }
      NoMemberEmpty(processors.Keys);
      NoMemberEmpty(threads.Keys);
    }

    /** stop_camera on a running camera, adding its stop event and thread
        to those already stopped: the ones stopped before stay stopped. */
    method StopTracked(id: int, ghost setEvents: set<StopEvent>, ghost joined: set<Worker>)
      returns (ghost setEvents': set<StopEvent>, ghost joined': set<Worker>)
      requires Valid() && id in stopEvents
      requires forall e :: e in setEvents ==> e.isSet
      requires forall w :: w in joined ==> !w.running
      modifies this, Repr
      ensures Valid() && Repr == old(Repr)
      ensures processors == old(processors) - {id} && stopEvents == old(stopEvents) - {id} && threads == old(threads) - {id}
      ensures setEvents' == setEvents + {old(stopEvents)[id]} && joined' == joined + {old(threads)[id]}
      ensures forall e :: e in setEvents' ==> e.isSet
      ensures forall w :: w in joined' ==> !w.running
    {
      setEvents' := setEvents + {stopEvents[id]};
      joined' := joined + {threads[id]};
      StopCamera(id);
    }

    /** get_processor: the camera's processor, None when it is not running. */
    function GetProcessor(id: int): (p: Option<VideoProcessor>)
      reads this
      ensures p.Some? <==> id in processors
      ensures p.Some? ==> p.value == processors[id]
    {
      if id in processors then Some(processors[id]) else None
    }
  }
}
