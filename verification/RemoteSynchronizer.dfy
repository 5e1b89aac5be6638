/** One process that refreshes under the lease: the two critical sections, on a control file shared with others. */
module RemoteSynchronizer {
  import opened Wrappers
  import opened LeaseProtocol
  import opened ActiveRelease

  class ControlFile {
    /** None when the file is missing or does not hold a control record. */
    var content: Option<Control>

    constructor ()
      ensures content == None
    {
      content := None;
    }

    function Read(): Control
      reads this
    {
      content.GetOr(Empty)
    }
  }

  datatype Refresh = RefreshDisposed | Joined | NoEndpoint | Skipped(reason: Acquisition) | Began

  /** What the download gave; it failed too when it was aborted. */
  datatype Download = Broken | Missing | Fetched(release: Release)

  datatype Completion = WasDisposed | EndpointChanged | NothingToApply | Reported(result: Application) | Threw

  class Synchronizer {
    const options: Settings
    const file: ControlFile
    const source: ConfigSource
    /** The lease of the refresh in flight. */
    var inFlight: Option<LeaseId>
    var endpoint: string
    var disposed: bool

    constructor (options: Settings, file: ControlFile, source: ConfigSource)
      ensures this.options == options && this.file == file && this.source == source && inFlight == None && !disposed
    {
      this.options, this.file, this.source := options, file, source;
      inFlight, endpoint, disposed := None, "", false;
    }

    /**
     Up to the download: acquires the lease under the lock of the control file. `endpointKey` is the resolved endpoint,
     without blanks around it.
     */
    method BeginRefresh(endpointKey: string, leaseId: LeaseId, force: bool, now: Time) returns (r: Refresh)
      modifies this`inFlight, this`endpoint, file
      ensures r.RefreshDisposed? <==> disposed
      ensures r.Joined? <==> !disposed && old(inFlight).Some?
      ensures r.NoEndpoint? <==> !disposed && old(inFlight).None? && endpointKey == ""
      ensures r.Skipped? ==> r.reason == MayAcquire(old(file.Read()), endpointKey, force, now) && !r.reason.Acquired?
      ensures r.Began? ==> MayAcquire(old(file.Read()), endpointKey, force, now).Acquired?
      ensures file.Read() == if r.Began? then Acquire(options, old(file.Read()), endpointKey, leaseId, force, now)
                             else old(file.Read())
      ensures inFlight == if r.Began? then Some(leaseId) else old(inFlight)
      ensures r.Began? ==> endpoint == endpointKey
      ensures !r.Began? ==> endpoint == old(endpoint)
    {
      if disposed {
        return RefreshDisposed;
      }
      if inFlight.Some? {
        return Joined;
      }
      if endpointKey == "" {
        return NoEndpoint;
      }
      var current := file.Read();
      var sameEndpoint := current.endpoint == endpointKey;
      if sameEndpoint && current.leaseUntil > now {
        return Skipped(LeaseHeld);
      }
      if !force && sameEndpoint && current.nextEligibleAt > now {
        return Skipped(NotDue);
      }
      file.content := Some(Control(
        endpointKey, Some(leaseId), now + options.lease,
        if sameEndpoint then current.nextEligibleAt else 0,
        if sameEndpoint then current.failureCount else 0));
      inFlight, endpoint := Some(leaseId), endpointKey;
      return Began;
    }

    /** After the download: the outcome goes into the control file only while the lease is still this one. */
    method FinishLease(success: Outcome, now: Time)
      requires inFlight.Some?
      modifies this`inFlight, file
      ensures file.Read() == Finish(options, old(file.Read()), endpoint, old(inFlight).value, success, now)
      ensures inFlight == None
    {
      var leaseId := inFlight.value;
      inFlight := None;
      var current := file.Read();
      if current.endpoint != endpoint || current.lease != Some(leaseId) {
        return;
      }
      var failureCount := match success
        case Cancelled => current.failureCount
        case Succeeded => 0
        case FailedRefresh => current.failureCount + 1;
      var delay := match success
        case Cancelled => 0
        case Succeeded => options.success
        case FailedRefresh => FailureDelay(options, failureCount);
      file.content := Some(Control(endpoint, None, 0, now + delay, failureCount));
    }

    /** The release is applied: the endpoint that it comes from is still the current one. */
    predicate Applies(download: Download, current: Option<string>)
      reads this
    {
      !disposed && download.Fetched? && current == Some(endpoint)
    }

    /**
     From the download to the end; `current` is the endpoint by then, None when it cannot be resolved. Only a fetched
     release of an endpoint that is still current reaches the active file, and the lease is finished in every case.
     */
    method CompleteRefresh(download: Download, current: Option<string>, now: Time) returns (r: Completion)
      requires inFlight.Some?
      modifies this`inFlight, file, source, source.file
      ensures inFlight == None
      ensures r.WasDisposed? <==> disposed
      ensures r.EndpointChanged? <==> !disposed && !download.Broken? && current.Some? && current != Some(endpoint)
      ensures r.Reported? ==> Applies(download, current)
      ensures Applies(download, current) && !source.disposed ==>
        var verdict := Verdict(source.bundled, old(source.file.content), download.release);
        && source.file.content == Applied(source.bundled, old(source.file.content), download.release)
        && r == if verdict.ContentConflict? || verdict.Unavailable? then Threw else Reported(verdict)
      ensures !Applies(download, current) || source.disposed ==> source.file.content == old(source.file.content)
      ensures file.Read() == Finish(options, old(file.Read()), endpoint, old(inFlight).value,
                                    if r.WasDisposed? then Cancelled else if r.Threw? then FailedRefresh else Succeeded, now)
      ensures source.disposed == old(source.disposed)
    {
      if disposed {
        r := WasDisposed;
      } else if download.Broken? || current.None? {
        r := Threw;
      } else if current != Some(endpoint) {
        r := EndpointChanged;
      } else if download.Missing? {
        r := NothingToApply;
      } else if source.disposed {
        r := Threw;
      } else {
        var result, _ := source.ApplyRemoteRelease(download.release);
        r := if result.ContentConflict? || result.Unavailable? then Threw else Reported(result);
      }
      FinishLease(if r.WasDisposed? then Cancelled else if r.Threw? then FailedRefresh else Succeeded, now);
    }

    method DisposeSynchronizer()
      modifies this`disposed
      ensures disposed
    {
      disposed := true;
    }
  }
}
