/**
 The systemd unit files of one scheduled job: registration with its rollback, retirement, and the
 deferred cleanup of a retired service, each one step under the job's unit lock.
 */
module HostJobs {
  import opened Options

  type Content = string

  datatype UnitFiles = UnitFiles(service: Option<Content>, timer: Option<Content>)

  /** The unit files of the job, and how many deferred cleanups systemd still holds for it. */
  datatype Host = Host(files: UnitFiles, cleanups: nat)

  // ---------- what the host answers ----------

  datatype RetireAnswer = RetireAnswer(disableFails: bool, removeFails: bool, reloadFails: bool, scheduleFails: bool)

  /** `wasRegistered` is none when systemd cannot be asked. */
  datatype RegisterAnswer = RegisterAnswer(
    wasRegistered: Option<bool>,
    readFails: bool,
    logFails: bool,
    serviceFails: bool,
    timerFails: bool,
    activateFails: bool,
    renderFails: bool,
    retire: RetireAnswer,
    restoreServiceFails: bool,
    restoreTimerFails: bool)

  datatype CleanupAnswer = CleanupAnswer(disableFails: bool, unlinkFails: bool)

  // ---------- what each step does ----------

  /** The timer file goes at once; the service is left to a cleanup after its current invocation. */
  function Retired(host: Host, answer: RetireAnswer): (Host, bool)
  {
    if answer.disableFails || answer.removeFails then (host, false)
    else
      var removed := host.(files := host.files.(timer := None));
      if answer.reloadFails || answer.scheduleFails then (removed, false)
      else (removed.(cleanups := removed.cleanups + 1), true)
  }

  /** The service file, then the timer file; the first failure ends it. */
  function Installed(files: UnitFiles, service: Content, timer: Content, answer: RegisterAnswer): UnitFiles
  {
    if answer.logFails || answer.serviceFails then files
    else if answer.timerFails then files.(service := Some(service))
    else UnitFiles(Some(service), Some(timer))
  }

  /** The previous files, service first; without an earlier registration only those that existed. */
  function Restored(files: UnitFiles, previous: UnitFiles, wasRegistered: bool, answer: RegisterAnswer): UnitFiles
  {
    var restoresService := wasRegistered || previous.service.Some?;
    var restoresTimer := wasRegistered || previous.timer.Some?;
    if restoresService && answer.restoreServiceFails then files
    else
      var withService := if restoresService then files.(service := previous.service) else files;
      if !restoresTimer || answer.restoreTimerFails then withService
      else withService.(timer := previous.timer)
  }

  function RolledBack(host: Host, previous: UnitFiles, wasRegistered: bool, answer: RegisterAnswer): Host
  {
    var retired := if wasRegistered || answer.renderFails then host else Retired(host, answer.retire).0;
    retired.(files := Restored(retired.files, previous, wasRegistered, answer))
  }

  /** The host after a registration, and whether it succeeded. */
  function Registered(host: Host, service: Content, timer: Content, answer: RegisterAnswer): (Host, bool)
  {
    if answer.wasRegistered.None? || answer.readFails then (host, false)
    else
      var installed := host.(files := Installed(host.files, service, timer, answer));
      if answer.logFails || answer.serviceFails || answer.timerFails || answer.activateFails
      then (RolledBack(installed, host.files, answer.wasRegistered.value, answer), false)
      else (installed, true)
  }

  /** The deferred removal of a service whose job has not been registered again. */
  function CleanedUp(host: Host, answer: CleanupAnswer): Host
  {
    var files := host.files;
    var ran := host.(cleanups := if host.cleanups > 0 then host.cleanups - 1 else 0);
    if files.timer.Some? || files.service.None? || answer.disableFails || answer.unlinkFails then ran
    else ran.(files := files.(service := None))
  }

  // ---------- the scheduler ----------

  class SystemdScheduler {
    var service: Option<Content>
    var timer: Option<Content>
    var cleanups: nat

    ghost function State(): Host
      reads this
    {
      Host(UnitFiles(service, timer), cleanups)
    }

    constructor ()
      ensures State() == Host(UnitFiles(None, None), 0)
    {
      service, timer, cleanups := None, None, 0;
    }

    method Register(newService: Content, newTimer: Content, answer: RegisterAnswer) returns (isRegistered: bool)
      modifies this
      ensures (State(), isRegistered) == Registered(old(State()), newService, newTimer, answer)
    {
      if answer.wasRegistered.None? || answer.readFails {
        return false;
      }
      var previousService, previousTimer := service, timer;
      var isInstalled := InstallFiles(newService, newTimer, answer);
      if !isInstalled || answer.activateFails {
        Rollback(previousService, previousTimer, answer.wasRegistered.value, answer);
        return false;
      }
      return true;
    }

    method InstallFiles(newService: Content, newTimer: Content, answer: RegisterAnswer) returns (isInstalled: bool)
      modifies this`service, this`timer
      ensures State().files == Installed(old(State()).files, newService, newTimer, answer)
      ensures isInstalled == !(answer.logFails || answer.serviceFails || answer.timerFails)
    {
      if answer.logFails || answer.serviceFails {
        return false;
      }
      service := Some(newService);
      if answer.timerFails {
        return false;
      }
      timer := Some(newTimer);
      return true;
    }

    method Rollback(previousService: Option<Content>, previousTimer: Option<Content>, wasRegistered: bool,
                    answer: RegisterAnswer)
      modifies this
      ensures State() == RolledBack(old(State()), UnitFiles(previousService, previousTimer), wasRegistered, answer)
    {
      if !wasRegistered && !answer.renderFails {
        var _ := Retire(answer.retire);
      }
      if wasRegistered || previousService.Some? {
        if answer.restoreServiceFails {
          return;
        }
        service := previousService;
      }
      if wasRegistered || previousTimer.Some? {
        if answer.restoreTimerFails {
          return;
        }
        timer := previousTimer;
      }
    }

    method Retire(answer: RetireAnswer) returns (isRetired: bool)
      modifies this`timer, this`cleanups
      ensures (State(), isRetired) == Retired(old(State()), answer)
    {
      if answer.disableFails || answer.removeFails {
        return false;
      }
      timer := None;
      if answer.reloadFails || answer.scheduleFails {
        return false;
      }
      cleanups := cleanups + 1;
      return true;
    }

    method RetireService(answer: CleanupAnswer)
      modifies this`service, this`cleanups
      ensures State() == CleanedUp(old(State()), answer)
    {
      cleanups := if cleanups > 0 then cleanups - 1 else 0;
      if timer.Some? || service.None? {
        return;
      }
      if answer.disableFails || answer.unlinkFails {
        return;
      }
      service := None;
    }
  }

  // ---------- a timer always has its service ----------

  /** No timer file is installed without its service file. */
  predicate IsServed(files: UnitFiles)
  {
    files.timer.Some? ==> files.service.Some?
  }

  /**
   The one way to strand a timer: systemd calls the job registered although its service file is not
   there, the new files are written, the activation fails, and of the two removals that restore the
   old state only the timer's fails.
   */
  predicate StrandsTimer(files: UnitFiles, answer: RegisterAnswer)
  {
    && answer.wasRegistered == Some(true) && files.service.None? && !answer.readFails
    && !answer.logFails && !answer.serviceFails && !answer.timerFails && answer.activateFails
    && !answer.restoreServiceFails && answer.restoreTimerFails
  }

  lemma RegisterKeepsServedIff(host: Host, service: Content, timer: Content, answer: RegisterAnswer)
    requires IsServed(host.files)
    ensures IsServed(Registered(host, service, timer, answer).0.files) <==> !StrandsTimer(host.files, answer)
  {
  }

  /** Whether faults can strand the timer shows before the call. */
  lemma SafeToRegisterIff(host: Host, service: Content, timer: Content, wasRegistered: bool)
    requires IsServed(host.files)
    ensures (forall answer: RegisterAnswer :: answer.wasRegistered == Some(wasRegistered) ==>
                                IsServed(Registered(host, service, timer, answer).0.files)) <==>
            !(wasRegistered && host.files.service.None?)
  {
    forall answer: RegisterAnswer | answer.wasRegistered == Some(wasRegistered)
      ensures IsServed(Registered(host, service, timer, answer).0.files) <==> !StrandsTimer(host.files, answer)
    {
      RegisterKeepsServedIff(host, service, timer, answer);
    }
    var fault := RegisterAnswer(Some(wasRegistered), false, false, false, false, true, false,
                                RetireAnswer(false, false, false, false), false, true);
    assert wasRegistered && host.files.service.None? ==> StrandsTimer(host.files, fault);
  }

  // ---------- what a failed registration leaves ----------

  /**
   A failed registration of a registered job puts both files back; where putting one back fails, exactly the
   files written so far and not yet put back stay.
   */
  lemma FailedReregistrationRestores(host: Host, service: Content, timer: Content, answer: RegisterAnswer)
    requires answer.wasRegistered == Some(true) && !Registered(host, service, timer, answer).1
    ensures !answer.restoreServiceFails && !answer.restoreTimerFails ==>
              Registered(host, service, timer, answer).0 == host
    ensures var after := Registered(host, service, timer, answer).0;
            var isServiceLeft := !answer.readFails && !answer.logFails && !answer.serviceFails
                                 && answer.restoreServiceFails;
            var isTimerLeft := !answer.readFails && !answer.logFails && !answer.serviceFails && !answer.timerFails
                               && (answer.restoreServiceFails || answer.restoreTimerFails);
            && after.files.service == (if isServiceLeft then Some(service) else host.files.service)
            && after.files.timer == (if isTimerLeft then Some(timer) else host.files.timer)
            && after.cleanups == host.cleanups
  {
  }

  /**
   A failed first registration that retires cleanly leaves files that were there as they were, and of
   the others only a service file that its cleanup removes.
   */
  lemma FailedFirstRegistrationVanishes(host: Host, service: Content, timer: Content, answer: RegisterAnswer,
                                        cleanup: CleanupAnswer)
    requires answer.wasRegistered == Some(false) && !answer.readFails && !Registered(host, service, timer, answer).1
    requires !answer.renderFails && Retired(host, answer.retire).1
    requires !answer.restoreServiceFails && !answer.restoreTimerFails
    requires !cleanup.disableFails && !cleanup.unlinkFails
    ensures var after := Registered(host, service, timer, answer).0;
            && after.files.timer == host.files.timer
            && (host.files.service.Some? ==> after.files == host.files)
            && after.cleanups == host.cleanups + 1
            && (host.files == UnitFiles(None, None) ==> CleanedUp(after, cleanup) == host)
  {
  }

  /**
   A retirement succeeds exactly when none of its steps fails. It takes the timer with it unless one of the
   first two fails, and never the service, which the one cleanup it schedules then removes.
   */
  lemma RetiredJobVanishes(host: Host, answer: RetireAnswer, cleanup: CleanupAnswer)
    ensures var (after, isRetired) := Retired(host, answer);
            && (isRetired <==> after.cleanups != host.cleanups)
            && (isRetired <==>
                  !(answer.disableFails || answer.removeFails || answer.reloadFails || answer.scheduleFails))
            && after.files == host.files.(timer := if answer.disableFails || answer.removeFails then host.files.timer
                                                   else None)
            && (isRetired && !cleanup.disableFails && !cleanup.unlinkFails ==>
                  CleanedUp(after, cleanup) == Host(UnitFiles(None, None), host.cleanups))
  {
  }

  // ---------- interleavings ----------

  datatype JobEvent =
    | RegisterJob(service: Content, timer: Content, registerAnswer: RegisterAnswer)
    | RetireJob(retireAnswer: RetireAnswer)
    | RunCleanup(cleanupAnswer: CleanupAnswer)

  function HostAfter(host: Host, event: JobEvent): Host
  {
    match event
    case RegisterJob(service, timer, answer) => Registered(host, service, timer, answer).0
    case RetireJob(answer) => Retired(host, answer).0
    case RunCleanup(answer) => CleanedUp(host, answer)
  }

  function HostAt(host: Host, events: seq<JobEvent>): Host
  {
    if events == [] then host else HostAfter(HostAt(host, events[..|events| - 1]), events[|events| - 1])
  }

  /** No registration strands a timer on the files it meets. */
  ghost predicate NoneStrands(host: Host, events: seq<JobEvent>)
  {
    forall i :: 0 <= i < |events| && events[i].RegisterJob? ==>
      !StrandsTimer(HostAt(host, events[..i]).files, events[i].registerAnswer)
  }

  /**
   Whatever is registered, retired and cleaned up in between, and whatever fails: an installed timer has its
   service.
   */
  lemma {:induction false} TimerStaysServed(host: Host, events: seq<JobEvent>)
    requires IsServed(host.files) && NoneStrands(host, events)
    ensures IsServed(HostAt(host, events).files)
  {
    if events != [] {
      var n := |events| - 1;
      var front := events[..n];
      forall i | 0 <= i < n && front[i].RegisterJob?
        ensures !StrandsTimer(HostAt(host, front[..i]).files, front[i].registerAnswer)
      {
        assert events[i].RegisterJob? && front[..i] == events[..i];
      }
      TimerStaysServed(host, front);
      if events[n].RegisterJob? {
        assert !StrandsTimer(HostAt(host, events[..n]).files, events[n].registerAnswer);
        RegisterKeepsServedIff(HostAt(host, front), events[n].service, events[n].timer, events[n].registerAnswer);
      }
    }
  }

  /** Whenever systemd calls the job registered, its service file is there. */
  ghost predicate AnswersFit(host: Host, events: seq<JobEvent>)
  {
    forall i :: 0 <= i < |events| && events[i].RegisterJob? && events[i].registerAnswer.wasRegistered == Some(true) ==>
      HostAt(host, events[..i]).files.service.Some?
  }

  /**
   As long as systemd calls no job registered whose service file is gone, no fault of any registration,
   retirement or cleanup ever leaves a timer without its service.
   */
  lemma TimerOutlivesFaults(host: Host, events: seq<JobEvent>)
    requires IsServed(host.files) && AnswersFit(host, events)
    ensures IsServed(HostAt(host, events).files)
  {
    forall i | 0 <= i < |events| && events[i].RegisterJob?
      ensures !StrandsTimer(HostAt(host, events[..i]).files, events[i].registerAnswer)
    {
      assert events[i].registerAnswer.wasRegistered == Some(true) ==>
          HostAt(host, events[..i]).files.service.Some?;
    }
    TimerStaysServed(host, events);
  }

  /**
   However many cleanups of earlier retirements are still to run when a job is registered again, none
   of them touches its files.
   */
  lemma {:induction false} CleanupsSpareRegistered(host: Host, service: Content, timer: Content, answer: RegisterAnswer,
                                                   cleanups: seq<JobEvent>)
    requires Registered(host, service, timer, answer).1
    requires forall i :: 0 <= i < |cleanups| ==> cleanups[i].RunCleanup?
    ensures HostAt(Registered(host, service, timer, answer).0, cleanups).files == UnitFiles(Some(service), Some(timer))
    decreases |cleanups|
  {
    if cleanups != [] {
      CleanupsSpareRegistered(host, service, timer, answer, cleanups[..|cleanups| - 1]);
    }
  }

  /** A cleanup removes a service only when no timer file is there to start it. */
  lemma CleanupRemovesOnlyRetired(host: Host, answer: CleanupAnswer)
    ensures CleanedUp(host, answer).files != host.files <==>
            host.files.timer.None? && host.files.service.Some? && !answer.disableFails && !answer.unlinkFails
    ensures CleanedUp(host, answer).files.timer == host.files.timer
    ensures host.cleanups == 0 ==> CleanedUp(host, answer).cleanups == 0
    ensures host.cleanups > 0 ==> CleanedUp(host, answer).cleanups == host.cleanups - 1
  {
  }

  predicate Succeeds(answer: RegisterAnswer)
  {
    && answer.wasRegistered.Some? && !answer.readFails
    && !answer.logFails && !answer.serviceFails && !answer.timerFails && !answer.activateFails
  }

  /** The event does not take a registered job off the host. */
  predicate LeavesRegistered(event: JobEvent)
  {
    match event
    case RunCleanup(_) => true
    case RetireJob(answer) => answer.disableFails || answer.removeFails
    case RegisterJob(_, _, answer) =>
      || Succeeds(answer) || answer.wasRegistered.None? || answer.readFails
      || (answer.wasRegistered.value && !answer.restoreServiceFails && !answer.restoreTimerFails)
  }

  /** The files of the latest registration that succeeded. */
  function LatestFiles(files: UnitFiles, events: seq<JobEvent>): UnitFiles
  {
    if events == [] then files
    else
      var last := events[|events| - 1];
      if last.RegisterJob? && Succeeds(last.registerAnswer) then UnitFiles(Some(last.service), Some(last.timer))
      else LatestFiles(files, events[..|events| - 1])
  }

  /**
   Until a retirement removes its timer, a registered job has exactly the files of its latest successful
   registration, through cleanups, failed retirements and failed registrations that are rolled back.
   */
  lemma {:induction false} RegisteredFilesStay(host: Host, events: seq<JobEvent>)
    requires host.files.service.Some? && host.files.timer.Some?
    requires forall i :: 0 <= i < |events| ==> LeavesRegistered(events[i])
    ensures var files := HostAt(host, events).files;
            files == LatestFiles(host.files, events) && files.service.Some? && files.timer.Some?
    decreases |events|
  {
    if events != [] {
      var n := |events| - 1;
      RegisteredFilesStay(host, events[..n]);
      var before := HostAt(host, events[..n]);
      match events[n] {
        case RunCleanup(answer) => CleanupRemovesOnlyRetired(before, answer);
        case RetireJob(_) =>
        case RegisterJob(service, timer, answer) =>
          if answer.wasRegistered == Some(true) && !Succeeds(answer) {
            FailedReregistrationRestores(before, service, timer, answer);
          }
      }
    }
  }
}
