/**
 The watch controller: `FileMonitoringService` owns at most one `FileObserver`
 watching a path, starts and stops it, and keeps the foreground status text in
 step with whether something is being watched.
 */
module Service {
  import opened Wrappers
  import opened FileObserverEvents

  /** A `java.io.File`, reduced to its path. */
  type File = string

  /** The `onFileChange` function supplied to `start`, as an opaque handle. */
  datatype Callback = Callback(id: nat)

  /** One call `onFileChange(event, path)` made by an observer. */
  datatype Invocation = Invocation(callback: Callback, event: FileObserverEvent, path: Option<string>)

  /** The texts of the `file_monitor_enabled` and `file_monitor_disabled` string resources. */
  const FileMonitorEnabled: string := "file_monitor_enabled"
  const FileMonitorDisabled: string := "file_monitor_disabled"

  /**
   An `android.os.FileObserver` subclass created by `start`: a handle on a
   platform watch on `file` whose only state is whether it is watching.
   */
  class FileObserver {
    const file: File
    const onFileChange: Callback
    var watching: bool

    constructor (file: File, onFileChange: Callback)
      ensures this.file == file && this.onFileChange == onFileChange
      ensures !watching
    {
      this.file := file;
      this.onFileChange := onFileChange;
      watching := false;
    }

    method StartWatching()
      modifies this
      ensures watching
    {
      watching := true;
    }

    method StopWatching()
      modifies this
      ensures !watching
    {
      watching := false;
    }

    /**
     The overridden `onEvent`: a recognised code calls `onFileChange` once with
     its member and the path unchanged; an unrecognised one is caught and dropped.
     Neither changes any watch state.
     */
    method OnEvent(event: int, path: Option<string>) returns (calls: seq<Invocation>)
      ensures |calls| <= 1
      ensures calls == [] <==> forall e :: RawValue(e) != event
      ensures forall i :: 0 <= i < |calls| ==>
        calls[i].callback == onFileChange && RawValue(calls[i].event) == event && calls[i].path == path
    {
      var translated := ToFileObserverEvent(event);
      match translated
      case Some(e) =>
        assert RawValue(e) == event;
        calls := [Invocation(onFileChange, e, path)];
      case None =>
        assert forall e :: RawValue(e) != event;
        calls := [];
    }
  }

  class FileMonitoringService {
    var fileObserver: FileObserver?
    var monitoredFile: Option<File>
    /** Every message passed to `updateForegroundService`, oldest first. */
    ghost var foregroundUpdates: seq<string>
    /** Every observer this service has created. */
    ghost var created: set<FileObserver>

    /**
     The class invariant: the current observer is watching exactly when a file
     is monitored, and on that file; no other observer this service created is
     watching.
     */
    ghost predicate Valid()
      reads this, created
      ensures Valid() ==> forall o, p :: o in created && p in created && o.watching && p.watching ==> o == p
      ensures Valid() ==> (monitoredFile.Some? <==> exists o :: o in created && o.watching)
    {
      && (fileObserver != null ==> fileObserver in created)
      && (monitoredFile.Some? <==> fileObserver != null && fileObserver.watching)
      && (monitoredFile.Some? ==> fileObserver.file == monitoredFile.value)
      && (forall o :: o in created && o != fileObserver ==> !o.watching)
    }

    /** No observer this service created is watching. */
    ghost predicate Idle()
      reads this, created
    {
      monitoredFile == None && forall o :: o in created ==> !o.watching
    }

    /** The text the foreground notification shows now, if any has been posted. */
    ghost function Status(): Option<string>
      reads this
    {
      if foregroundUpdates == [] then None else Some(foregroundUpdates[|foregroundUpdates| - 1])
    }

    constructor ()
      ensures Valid() && Idle()
      ensures fileObserver == null && created == {} && foregroundUpdates == []
    {
      fileObserver := null;
      monitoredFile := None;
      foregroundUpdates := [];
      created := {};
    }

    /** `monitoringNow`. */
    function MonitoringNow(): (b: bool)
      reads this, created
      ensures b <==> monitoredFile.Some?
      ensures Valid() ==> (b <==> fileObserver != null && fileObserver.watching)
    {
      monitoredFile.Some?
    }

    /** `updateForegroundService`, reduced to the message it posts. */
    method UpdateForegroundService(message: string)
      modifies this`foregroundUpdates
      ensures foregroundUpdates == old(foregroundUpdates) + [message]
    {
      foregroundUpdates := foregroundUpdates + [message];
    }

    /**
     `start`: the new observer starts watching first, then the previous one (if
     any) is stopped, then the new one replaces it and the status says enabled.
     */
    method Start(file: File, onFileChange: Callback)
      requires Valid()
      modifies this, fileObserver
      ensures Valid()
      ensures fileObserver != null && fresh(fileObserver) && fileObserver.watching
      ensures fileObserver.file == file && fileObserver.onFileChange == onFileChange
      ensures monitoredFile == Some(file) && MonitoringNow()
      ensures old(fileObserver) != null ==> !old(fileObserver).watching
      ensures created == old(created) + {fileObserver}
      ensures foregroundUpdates == old(foregroundUpdates) + [FileMonitorEnabled]
      ensures Status() == Some(FileMonitorEnabled)
    {
      var observer := new FileObserver(file, onFileChange);
      observer.StartWatching();
      if fileObserver != null {
        fileObserver.StopWatching();
      }
      fileObserver := observer;
      created := created + {observer};
      UpdateForegroundService(FileMonitorEnabled);
      monitoredFile := Some(file);
    }

    /**
     `stop`: stops the current observer without forgetting it, clears the
     monitored file and re-posts the disabled status, whatever the prior state.
     */
    method Stop()
      requires Valid()
      modifies this, fileObserver
      ensures Valid() && Idle()
      ensures fileObserver == old(fileObserver) && created == old(created)
      ensures !MonitoringNow()
      ensures foregroundUpdates == old(foregroundUpdates) + [FileMonitorDisabled]
      ensures Status() == Some(FileMonitorDisabled)
    {
      if fileObserver != null {
        fileObserver.StopWatching();
      }
      UpdateForegroundService(FileMonitorDisabled);
      monitoredFile := None;
    }

    /** `onCreate`: the service comes up showing the disabled status. */
    method OnCreate()
      requires Valid()
      modifies this`foregroundUpdates
      ensures Valid()
      ensures foregroundUpdates == old(foregroundUpdates) + [FileMonitorDisabled]
      ensures Status() == Some(FileMonitorDisabled)
    {
      UpdateForegroundService(FileMonitorDisabled);
    }

    /** `onDestroy`: always ends idle, through `stop`. */
    method OnDestroy()
      requires Valid()
      modifies this, fileObserver
      ensures Valid() && Idle()
      ensures fileObserver == old(fileObserver) && created == old(created)
      ensures foregroundUpdates == old(foregroundUpdates) + [FileMonitorDisabled]
    {
      Stop();
    }
  }

  /** Starting while already watching leaves exactly one observer watching: the new one, on the new path. */
  method StartTwice(service: FileMonitoringService, first: File, second: File, cb: Callback)
    requires service.Valid()
    modifies service, service.fileObserver
    ensures service.Valid() && service.monitoredFile == Some(second)
    ensures forall o :: o in service.created && o.watching ==> o == service.fileObserver && o.file == second
  {
    service.Start(first, cb);
    service.Start(second, cb);
  }

  /** Stopping twice is harmless: the service stays idle and re-posts the disabled status. */
  method StopTwice(service: FileMonitoringService)
    requires service.Valid()
    modifies service, service.fileObserver
    ensures service.Valid() && service.Idle()
    ensures service.foregroundUpdates == old(service.foregroundUpdates) + [FileMonitorDisabled, FileMonitorDisabled]
  {
    service.Stop();
    service.Stop();
  }

  /** The life of a service: created, started, stopped, destroyed; each step shows in the status. */
  method Lifecycle(file: File, cb: Callback)
    returns (service: FileMonitoringService, calls: seq<Invocation>, monitoringAfterEvent: bool)
    ensures calls == [] && monitoringAfterEvent
    ensures service.Valid() && service.Idle()
    ensures service.foregroundUpdates ==
      [FileMonitorDisabled, FileMonitorEnabled, FileMonitorDisabled, FileMonitorDisabled]
  {
    service := new FileMonitoringService();
    service.OnCreate();
    service.Start(file, cb);
    var observer := service.fileObserver;
    calls := observer.OnEvent(0xFFF_FFFF, Some("a.txt"));
    assert calls == [] by {
      ExampleCodes();
    }
    monitoringAfterEvent := service.MonitoringNow();
    service.Stop();
    service.OnDestroy();
  }
}
