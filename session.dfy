/**
 * The session of CDeviceAuthManager: whether lpLoc and lpServices are non-null,
 * the success of the last HRESULT kept in hRes, and, because the interesting
 * behaviour is which references are given back, counters of every acquire and
 * release the session performs (IWbemLocator, IWbemServices, COM itself through
 * CoInitializeEx/CoUninitialize, query enumerators and enumerated records).
 * Each platform call is reduced to its success or failure.
 *
 * CHardwareAuth and CSoftwareAuth both derive from CDeviceAuthManager, so every
 * object of either class owns one such session; the seven query checks of the two
 * classes are the one method Authenticate, configured by Wql.SpecOf.
 */
module Session {
  import opened Wrappers
  import opened Wql
  import opened Query
  import opened Matching

  /** The outcomes of the platform steps of ConnectSetup, in call order. */
  datatype SetupOutcomes = SetupOutcomes(
    init: bool,           // CoInitializeEx, whose result the code never looks at
    security: bool,       // CoInitializeSecurity
    createLocator: bool,  // CoCreateInstance of the WbemLocator
    connectServer: bool,  // IWbemLocator::ConnectServer to root\CIMV2
    proxyBlanket: bool)   // CoSetProxyBlanket on the services proxy
  {
    predicate LocatorCreated() { security && createLocator }
    predicate ServerConnected() { LocatorCreated() && connectServer }
    predicate AllSucceed() { ServerConnected() && proxyBlanket }
  }

  /** How often a kind of reference was obtained and given back. */
  datatype Tally = Tally(acquired: nat, released: nat) {
    predicate Balanced() { acquired == released }
  }

  datatype Ledger = Ledger(
    locator: Tally, services: Tally, com: Tally, enumerators: Tally, records: Tally)
  {
    predicate Balanced() {
      locator.Balanced() && services.Balanced() && com.Balanced()
      && enumerators.Balanced() && records.Balanced()
    }
  }

  function Count(b: bool): nat {
    if b then 1 else 0
  }

  class DeviceAuthManager {
    /** MAX_LOADSTRING, the size of the query and where-clause buffers. */
    const maxLoadString: Capacity

    var hResOk: bool
    /** CoInitializeEx succeeded, so COM holds an initialisation this session owes back. */
    var comInitialised: bool
    var locNonNull: bool
    var servicesNonNull: bool

    var locAcquired: nat
    var locReleased: nat
    var servicesAcquired: nat
    var servicesReleased: nat
    var comInits: nat
    var comUninits: nat
    var enumAcquired: nat
    var enumReleased: nat
    var recordsFetched: nat
    var recordsReleased: nat

    function Tallies(): Ledger
      reads this
    {
      Ledger(Tally(locAcquired, locReleased), Tally(servicesAcquired, servicesReleased),
             Tally(comInits, comUninits), Tally(enumAcquired, enumReleased),
             Tally(recordsFetched, recordsReleased))
    }

    /** Both interface pointers are set and still hold a reference: a query may be issued. */
    predicate Connected()
      reads this
    {
      locNonNull && servicesNonNull
      && locReleased < locAcquired && servicesReleased < servicesAcquired
    }

    /**
     * Every reference is accounted for: a non-null interface pointer holds exactly
     * one outstanding reference and a null one none, COM is initialised once more
     * than it was uninitialised exactly when CoInitializeEx succeeded, and nothing
     * else is outstanding.
     */
    predicate Accounted()
      reads this
    {
      locAcquired == locReleased + Count(locNonNull)
      && servicesAcquired == servicesReleased + Count(servicesNonNull)
      && comInits == comUninits + Count(comInitialised)
      && enumAcquired == enumReleased && recordsFetched == recordsReleased
    }

    /** The constructor, which runs ConnectSetup and discards its result. */
    constructor (maxLoadString: int, steps: SetupOutcomes)
      requires maxLoadString > 0
      ensures this.maxLoadString == maxLoadString
      ensures hResOk == steps.AllSucceed() && comInitialised == steps.init
      ensures locNonNull == steps.LocatorCreated() && servicesNonNull == steps.ServerConnected()
      ensures Tallies() == Ledger(
        Tally(Count(steps.LocatorCreated()), Count(steps.LocatorCreated() && !steps.AllSucceed())),
        Tally(Count(steps.ServerConnected()), Count(steps.ServerConnected() && !steps.AllSucceed())),
        Tally(Count(steps.init), Count(steps.security && !steps.AllSucceed())),
        Tally(0, 0), Tally(0, 0))
      ensures Connected() <==> steps.AllSucceed()
    {
      this.maxLoadString := maxLoadString;
      hResOk, comInitialised, locNonNull, servicesNonNull := false, false, false, false;
      locAcquired, locReleased, servicesAcquired, servicesReleased := 0, 0, 0, 0;
      comInits, comUninits, enumAcquired, enumReleased := 0, 0, 0, 0;
      recordsFetched, recordsReleased := 0, 0;
      new;
      var _ := ConnectSetup(steps);
    }

    /**
     * ConnectSetup as written. Each failure path gives back what the attempt
     * acquired before it (nothing; COM; the locator and COM; the services, the
     * locator and COM) but leaves the released pointers non-null. The result of
     * CoInitializeEx is overwritten unchecked, so the failure paths uninitialise
     * COM whether or not it was initialised.
     */
    method ConnectSetup(steps: SetupOutcomes) returns (ok: bool)
      modifies this`hResOk, this`comInitialised, this`locNonNull, this`servicesNonNull, this`locAcquired,
        this`locReleased, this`servicesAcquired, this`servicesReleased, this`comInits,
        this`comUninits
      ensures ok == steps.AllSucceed() && hResOk == ok
      ensures comInitialised == steps.init
      ensures locNonNull == steps.LocatorCreated()
      ensures servicesNonNull == steps.ServerConnected()
      ensures locAcquired == old(locAcquired) + Count(steps.LocatorCreated())
      ensures locReleased == old(locReleased) + Count(steps.LocatorCreated() && !ok)
      ensures servicesAcquired == old(servicesAcquired) + Count(steps.ServerConnected())
      ensures servicesReleased == old(servicesReleased) + Count(steps.ServerConnected() && !ok)
      ensures comInits == old(comInits) + Count(steps.init)
      ensures comUninits == old(comUninits) + Count(steps.security && !ok)
    {
      locNonNull, servicesNonNull := false, false;
      hResOk := steps.init;
      comInitialised := hResOk;
      if hResOk {
        comInits := comInits + 1;
      }
      hResOk := steps.security;
      if !hResOk {
        return false;
      }
      hResOk := steps.createLocator;
      if !hResOk {
        comUninits := comUninits + 1;
        return false;
      }
      locNonNull, locAcquired := true, locAcquired + 1;
      hResOk := steps.connectServer;
      if !hResOk {
        locReleased := locReleased + 1;
        comUninits := comUninits + 1;
        return false;
      }
      servicesNonNull, servicesAcquired := true, servicesAcquired + 1;
      hResOk := steps.proxyBlanket;
      if !hResOk {
        servicesReleased := servicesReleased + 1;
        locReleased := locReleased + 1;
        comUninits := comUninits + 1;
        return false;
      }
      return true;
    }

    /**
     * DisconnectWMI: releases each non-null pointer and uninitialises COM, without
     * nulling. From an accounted state everything ends balanced exactly when
     * CoInitializeEx had succeeded.
     */
    method DisconnectWMI()
      modifies this`locReleased, this`servicesReleased, this`comUninits
      ensures locReleased == old(locReleased) + Count(locNonNull)
      ensures servicesReleased == old(servicesReleased) + Count(servicesNonNull)
      ensures comUninits == old(comUninits) + 1
      ensures old(Accounted()) ==> (Tallies().Balanced() <==> comInitialised)
    {
      if locNonNull {
        locReleased := locReleased + 1;
      }
      if servicesNonNull {
        servicesReleased := servicesReleased + 1;
      }
      comUninits := comUninits + 1;
    }

    /** The destructor, which runs DisconnectWMI. */
    method Destroy()
      modifies this`locReleased, this`servicesReleased, this`comUninits
      ensures locReleased == old(locReleased) + Count(locNonNull)
      ensures servicesReleased == old(servicesReleased) + Count(servicesNonNull)
      ensures comUninits == old(comUninits) + 1
      ensures old(Accounted()) ==> (Tallies().Balanced() <==> comInitialised)
    {
      DisconnectWMI();
    }

    /**
     * GetClassObject as written: renders the query into lpQuery and runs it. A
     * where-clause StringCchLength rejects fails without touching the session; a
     * failed ExecQuery releases the services, the locator and COM but leaves both
     * pointers non-null. The enumerator obtained on success is never released.
     * The source calls through lpServices, so the session must be connected.
     */
    method GetClassObject(className: string, where: string, execQuery: string -> bool)
      returns (ok: bool)
      requires Connected()
      modifies this`hResOk, this`locReleased, this`servicesReleased, this`comUninits,
        this`enumAcquired
      ensures ok <==> |where| < StrsafeMaxCch && execQuery(QueryText(className, where, maxLoadString))
      ensures hResOk == if |where| < StrsafeMaxCch then ok else old(hResOk)
      ensures enumAcquired == old(enumAcquired) + Count(ok)
      ensures var tornDown := |where| < StrsafeMaxCch && !ok;
        locReleased == old(locReleased) + Count(tornDown)
        && servicesReleased == old(servicesReleased) + Count(tornDown)
        && comUninits == old(comUninits) + Count(tornDown)
    {
      if |where| >= StrsafeMaxCch {
        return false;
      }
      var query := QueryText(className, where, maxLoadString);
      hResOk := execQuery(query);
      if !hResOk {
        servicesReleased := servicesReleased + 1;
        locReleased := locReleased + 1;
        comUninits := comUninits + 1;
        return false;
      }
      enumAcquired := enumAcquired + 1;
      return true;
    }

    /**
     * The seven Auth* query checks: bResult starts FALSE, the check's query runs,
     * and on success every record is matched against the first iCount candidates.
     * The BOOL result says whether the query ran, bResult whether something matched.
     */
    method Authenticate(check: Check, candidates: seq<string>, iCount: int,
                        execQuery: string -> bool, records: seq<Option<string>>)
      returns (ok: bool, bResult: bool)
      requires Connected()
      requires iCount <= |candidates|
      modifies this`hResOk, this`locReleased, this`servicesReleased, this`comUninits,
        this`enumAcquired, this`recordsFetched, this`recordsReleased
      ensures ok <==> execQuery(QueryFor(SpecOf(check), maxLoadString))
      ensures bResult <==> ok && AnyMatch(records, Allowed(candidates, iCount))
      ensures hResOk == ok
      ensures enumAcquired == old(enumAcquired) + Count(ok)
      ensures locReleased == old(locReleased) + Count(!ok)
      ensures servicesReleased == old(servicesReleased) + Count(!ok)
      ensures comUninits == old(comUninits) + Count(!ok)
      ensures recordsFetched == old(recordsFetched) + (if ok then |records| else 0)
      ensures recordsReleased == old(recordsReleased) + (if ok then |records| else 0)
    {
      bResult := false;
      var spec := SpecOf(check);
      var where := WhereFor(spec.filter, maxLoadString);
      assert spec.filter.Some? ==> |RenderFilter(spec.filter.value)| <= 22;
      ok := GetClassObject(spec.className, where, execQuery);
      if ok {
        var released;
        bResult, released := MatchRecords(records, candidates, iCount);
        recordsFetched := recordsFetched + |records|;
        recordsReleased := recordsReleased + released;
      }
    }

    /** A session set up by ConnectSetupCorrected. */
    constructor Corrected(maxLoadString: int, steps: SetupOutcomes)
      requires maxLoadString > 0
      ensures this.maxLoadString == maxLoadString
      ensures comInitialised == steps.init
      ensures Accounted()
      ensures Connected() <==> steps.init && steps.AllSucceed()
    {
      this.maxLoadString := maxLoadString;
      hResOk, comInitialised, locNonNull, servicesNonNull := false, false, false, false;
      locAcquired, locReleased, servicesAcquired, servicesReleased := 0, 0, 0, 0;
      comInits, comUninits, enumAcquired, enumReleased := 0, 0, 0, 0;
      recordsFetched, recordsReleased := 0, 0;
      new;
      var _ := ConnectSetupCorrected(steps);
    }

    /**
     * ConnectSetup that checks CoInitializeEx like every other step, releases and
     * nulls on each failure path the pointers it set, and leaves CoUninitialize to
     * DisconnectWMICorrected.
     */
    method ConnectSetupCorrected(steps: SetupOutcomes) returns (ok: bool)
      requires !locNonNull && !servicesNonNull
      requires locAcquired == locReleased && servicesAcquired == servicesReleased
      requires comInits == comUninits && enumAcquired == enumReleased
      requires recordsFetched == recordsReleased
      modifies this`hResOk, this`comInitialised, this`locNonNull, this`servicesNonNull,
        this`locAcquired, this`locReleased, this`servicesAcquired, this`servicesReleased,
        this`comInits
      ensures ok == (steps.init && steps.AllSucceed()) && hResOk == ok
      ensures comInitialised == steps.init
      ensures !ok ==> !locNonNull && !servicesNonNull
      ensures Accounted()
      ensures Connected() <==> ok
    {
      hResOk := steps.init;
      comInitialised := hResOk;
      if !hResOk {
        return false;
      }
      comInits := comInits + 1;
      hResOk := steps.security;
      if !hResOk {
        return false;
      }
      hResOk := steps.createLocator;
      if !hResOk {
        return false;
      }
      locNonNull, locAcquired := true, locAcquired + 1;
      hResOk := steps.connectServer;
      if !hResOk {
        locNonNull, locReleased := false, locReleased + 1;
        return false;
      }
      servicesNonNull, servicesAcquired := true, servicesAcquired + 1;
      hResOk := steps.proxyBlanket;
      if !hResOk {
        servicesNonNull, servicesReleased := false, servicesReleased + 1;
        locNonNull, locReleased := false, locReleased + 1;
        return false;
      }
      return true;
    }

    /**
     * GetClassObject whose failure path releases and nulls both pointers, leaving
     * COM to DisconnectWMICorrected.
     */
    method GetClassObjectCorrected(className: string, where: string, execQuery: string -> bool)
      returns (ok: bool)
      requires Connected() && Accounted()
      modifies this`hResOk, this`locNonNull, this`servicesNonNull, this`locReleased,
        this`servicesReleased, this`enumAcquired
      ensures ok <==> |where| < StrsafeMaxCch && execQuery(QueryText(className, where, maxLoadString))
      ensures enumAcquired == old(enumAcquired) + Count(ok)
      ensures enumAcquired == enumReleased + Count(ok)
      ensures locAcquired == locReleased + Count(locNonNull)
      ensures servicesAcquired == servicesReleased + Count(servicesNonNull)
      ensures Connected() <==> (ok || |where| >= StrsafeMaxCch)
      ensures |where| < StrsafeMaxCch && !ok ==>
        !locNonNull && !servicesNonNull
        && locReleased == old(locReleased) + 1 && servicesReleased == old(servicesReleased) + 1
      ensures ok || |where| >= StrsafeMaxCch ==>
        locNonNull && servicesNonNull
        && locReleased == old(locReleased) && servicesReleased == old(servicesReleased)
    {
      if |where| >= StrsafeMaxCch {
        return false;
      }
      var query := QueryText(className, where, maxLoadString);
      hResOk := execQuery(query);
      if !hResOk {
        servicesNonNull, servicesReleased := false, servicesReleased + 1;
        locNonNull, locReleased := false, locReleased + 1;
        return false;
      }
      enumAcquired := enumAcquired + 1;
      return true;
    }

    /**
     * Authenticate over GetClassObjectCorrected: FALSE with bResult FALSE when the
     * session is not connected, and the enumerator released after the loop.
     */
    method AuthenticateCorrected(check: Check, candidates: seq<string>, iCount: int,
                                 execQuery: string -> bool, records: seq<Option<string>>)
      returns (ok: bool, bResult: bool)
      requires Accounted()
      requires iCount <= |candidates|
      modifies this`hResOk, this`locNonNull, this`servicesNonNull, this`locReleased,
        this`servicesReleased, this`enumAcquired, this`enumReleased, this`recordsFetched,
        this`recordsReleased
      ensures ok <==> old(Connected()) && execQuery(QueryFor(SpecOf(check), maxLoadString))
      ensures bResult <==> ok && AnyMatch(records, Allowed(candidates, iCount))
      ensures !old(Connected()) ==> Tallies() == old(Tallies()) && hResOk == old(hResOk)
      ensures enumAcquired == old(enumAcquired) + Count(ok)
      ensures enumReleased == old(enumReleased) + Count(ok)
      ensures recordsFetched == old(recordsFetched) + (if ok then |records| else 0)
      ensures recordsReleased == old(recordsReleased) + (if ok then |records| else 0)
      ensures Accounted()
      ensures Connected() <==> ok
    {
      bResult := false;
      if !Connected() {
        return false, false;
      }
      var spec := SpecOf(check);
      var where := WhereFor(spec.filter, maxLoadString);
      assert spec.filter.Some? ==> |RenderFilter(spec.filter.value)| <= 22;
      ok := GetClassObjectCorrected(spec.className, where, execQuery);
      if ok {
        var released;
        bResult, released := MatchRecords(records, candidates, iCount);
        recordsFetched := recordsFetched + |records|;
        recordsReleased := recordsReleased + released;
        enumReleased := enumReleased + 1;
      }
    }

    /**
     * DisconnectWMI that uninitialises COM only when CoInitializeEx succeeded:
     * from an accounted state every count ends balanced.
     */
    method DisconnectWMICorrected()
      modifies this`comInitialised, this`locReleased, this`servicesReleased, this`comUninits
      ensures locReleased == old(locReleased) + Count(locNonNull)
      ensures servicesReleased == old(servicesReleased) + Count(servicesNonNull)
      ensures comUninits == old(comUninits) + Count(old(comInitialised)) && !comInitialised
      ensures old(Accounted()) ==> Tallies().Balanced()
    {
      if locNonNull {
        locReleased := locReleased + 1;
      }
      if servicesNonNull {
        servicesReleased := servicesReleased + 1;
      }
      if comInitialised {
        comUninits, comInitialised := comUninits + 1, false;
      }
    }
  }

  /**
   * A session that is constructed and destroyed as written, for every outcome
   * of the setup steps. COM is uninitialised once by the destructor and once
   * more by every failure path after CoInitializeSecurity, whether or not
   * CoInitializeEx succeeded; so a failed CoInitializeEx always leaves COM
   * uninitialised more often than initialised. Each interface a failed setup
   * obtained is released twice.
   */
  method SetupLifecycle(capacity: int, steps: SetupOutcomes) returns (ledger: Ledger)
    requires capacity > 0
    ensures ledger.enumerators == Tally(0, 0) && ledger.records == Tally(0, 0)
    ensures ledger.com == Tally(Count(steps.init), 1 + Count(steps.security && !steps.AllSucceed()))
    ensures !steps.init ==> ledger.com.released > ledger.com.acquired
    ensures steps.init && (steps.AllSucceed() || !steps.security) ==> ledger.Balanced()
    ensures steps.AllSucceed() || !steps.LocatorCreated() ==>
      ledger.locator.Balanced() && ledger.services.Balanced()
    ensures steps.LocatorCreated() && !steps.connectServer ==>
      ledger.locator == Tally(1, 2) && ledger.services == Tally(0, 0)
    ensures steps.ServerConnected() && !steps.proxyBlanket ==>
      ledger.locator == Tally(1, 2) && ledger.services == Tally(1, 2)
  {
    var session := new DeviceAuthManager(capacity, steps);
    session.Destroy();
    ledger := session.Tallies();
  }

  /**
   * One query check on a session whose setup succeeded, then destruction, as
   * written: a successful query leaks its enumerator; a failed one makes the
   * destructor release the locator, the services and COM a second time.
   */
  method QueryLifecycle(capacity: int, check: Check, candidates: seq<string>, iCount: int,
                        execQuery: string -> bool, records: seq<Option<string>>)
    returns (ok: bool, bResult: bool, ledger: Ledger)
    requires capacity > 0
    requires iCount <= |candidates|
    ensures ok <==> execQuery(QueryFor(SpecOf(check), capacity))
    ensures bResult <==> ok && AnyMatch(records, Allowed(candidates, iCount))
    ensures ok ==>
      ledger.locator == Tally(1, 1) && ledger.services == Tally(1, 1) && ledger.com == Tally(1, 1)
      && ledger.enumerators == Tally(1, 0) && ledger.records == Tally(|records|, |records|)
    ensures !ok ==>
      ledger.locator == Tally(1, 2) && ledger.services == Tally(1, 2) && ledger.com == Tally(1, 2)
      && ledger.enumerators == Tally(0, 0) && ledger.records == Tally(0, 0)
  {
    var session := new DeviceAuthManager(capacity, SetupOutcomes(true, true, true, true, true));
    ok, bResult := session.Authenticate(check, candidates, iCount, execQuery, records);
    session.Destroy();
    ledger := session.Tallies();
  }

  /**
   * A session used as written by a check, whatever the setup outcome: whether
   * the first check calls ExecQuery through an lpServices that still holds a
   * reference, and whether a second check would. The constructor ignores the
   * result of ConnectSetup, so after a failed setup the first call already goes
   * through a null or released pointer; after a failed query every later call
   * goes through a released one.
   */
  method UnguardedChecksLifecycle(capacity: int, steps: SetupOutcomes, check: Check,
                                  candidates: seq<string>, iCount: int,
                                  execQuery: string -> bool, records: seq<Option<string>>)
    returns (firstCallLive: bool, ok: bool, bResult: bool, secondCallLive: bool)
    requires capacity > 0
    requires iCount <= |candidates|
    ensures firstCallLive <==> steps.AllSucceed()
    ensures ok <==> firstCallLive && execQuery(QueryFor(SpecOf(check), capacity))
    ensures bResult <==> ok && AnyMatch(records, Allowed(candidates, iCount))
    ensures secondCallLive <==> ok
  {
    var session := new DeviceAuthManager(capacity, steps);
    firstCallLive := session.Connected();
    ok, bResult := false, false;
    if firstCallLive {
      ok, bResult := session.Authenticate(check, candidates, iCount, execQuery, records);
    }
    secondCallLive := session.Connected();
  }

  /**
   * The corrected session, for every outcome of every step: a query is issued
   * only when the setup succeeded, and after DisconnectWMICorrected every
   * reference is given back exactly once.
   */
  method CorrectedLifecycle(capacity: int, steps: SetupOutcomes, check: Check,
                            candidates: seq<string>, iCount: int,
                            execQuery: string -> bool, records: seq<Option<string>>)
    returns (ok: bool, bResult: bool, ledger: Ledger)
    requires capacity > 0
    requires iCount <= |candidates|
    ensures ok <==> steps.init && steps.AllSucceed() && execQuery(QueryFor(SpecOf(check), capacity))
    ensures bResult <==> ok && AnyMatch(records, Allowed(candidates, iCount))
    ensures ledger.Balanced()
  {
    var session := new DeviceAuthManager.Corrected(capacity, steps);
    ok, bResult := session.AuthenticateCorrected(check, candidates, iCount, execQuery, records);
    session.DisconnectWMICorrected();
    ledger := session.Tallies();
  }

  /**
   * A BIOS that reports serial number "X1234", checked against the single
   * candidate "X1234": the call succeeds and reports a match.
   */
  method ComputerSerialExample() returns (ok: bool, bResult: bool)
    ensures ok && bResult
  {
    var session := new DeviceAuthManager(100, SetupOutcomes(true, true, true, true, true));
    ok, bResult := session.Authenticate(ComputerSerial, ["X1234"], 1, _ => true, [Some("X1234")]);
    assert Allowed(["X1234"], 1) == ["X1234"];
    assert [Some("X1234")][0].value in ["X1234"];
  }

  /**
   * A filtered disk query whose result is empty (no drive on the requested bus):
   * the call succeeds and reports no match.
   */
  method EmptyDiskQueryExample() returns (ok: bool, bResult: bool)
    ensures ok && !bResult
  {
    var session := new DeviceAuthManager(100, SetupOutcomes(true, true, true, true, true));
    ok, bResult := session.Authenticate(SystemDisk, ["A", "B"], 2, _ => true, []);
  }
}
