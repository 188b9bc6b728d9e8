/**
 * The Connection record of the firewall console's connection list: one row of
 * the live list, built from one entry of the operating system's owner-module
 * connection table and refreshed from later entries for the same connection.
 *
 * Observable outcomes are kept in two logs on the record:
 *  - `notified`: the property names passed to NotifyPropertyChanged, in order;
 *  - `resolveRequests`: the hostname lookups asked for, in order.
 * The owner lookup, the state-name table and the clock are parameters.
 */
module ViewModels {
  import opened Wrappers
  import opened Decimal

  /** The range of a C# `uint`. */
  type UInt32 = x: int | 0 <= x < 0x1_0000_0000

  /** The owner module of an entry, when the table had one. */
  datatype OwnerModule = OwnerModule(moduleName: string, iconHandle: nat)

  /** One raw entry of the owner-module connection table. */
  datatype OwnerModuleEntry = OwnerModuleEntry(
    owningPid: UInt32,
    protocol: string,
    localAddress: string,
    localPort: int,
    remoteAddress: string,
    remotePort: int,
    stateCode: int,
    creationTime: Option<int>,
    ownerModule: Option<OwnerModule>)

  /**
   * What the process-owner lookup for the entry's PID gave: its name and path
   * (either of which may be null), or an exception.
   */
  datatype OwnerLookup = LookupOk(name: Option<string>, path: Option<string>) | LookupFailed

  /** The record's icon: a stock icon by key, or the owner module's own. */
  datatype Icon = StockIcon(key: string) | ModuleIcon(handle: nat)

  /** A reverse-DNS request for one of the two addresses of the record. */
  datatype HostnameRequest = LocalLookup(ip: string) | RemoteLookup(ip: string)

  const SystemName := "System"
  const UnknownName := "Unknown"
  const ClosedProcessName := "[Unknown or closed process]"
  const UnresolvedPath := "Unresolved"
  const ErrorIconKey := "?error"

  /**
   * The name of a TCP state code in the state enumeration `names`, or null
   * (None) for a code the enumeration does not define.
   */
  function StateName(names: map<int, string>, code: int): (r: Option<string>)
    ensures r.Some? <==> code in names
    ensures r.Some? ==> r.value == names[code]
  {
    if code in names then Some(names[code]) else None
  }

  /**
   * The text shown for a remote port: empty for -1 (no remote port, as for a
   * UDP listener), otherwise the port in decimal.
   */
  function FormatPort(port: int): (s: string)
    ensures s == "" <==> port == -1
  {
    if port == -1 then "" else IntToDecimal(port)
  }

  /** Every port other than -1 can be read back from its text. */
  lemma FormatPortReadsBack(port: int)
    requires port != -1
    ensures ParseInt(FormatPort(port)) == Some(port)
  {
    IntDecimalRoundTrip(port);
  }

  /** Remote port texts differ exactly when the ports differ. */
  lemma FormatPortInjective(a: int, b: int)
    ensures FormatPort(a) == FormatPort(b) <==> a == b
  {
    if a != -1 && b != -1 {
      FormatPortReadsBack(a);
      FormatPortReadsBack(b);
    }
  }

  /** Reads the PID back from the trailing "[<digits>]" of a group key. */
  function GroupKeyPid(key: string): Option<nat> {
    if 0 < |key| && key[|key| - 1] == ']' then
      var digits := TrailingDigits(key[..|key| - 1]);
      if digits != [] && |digits| < |key| - 1 && key[|key| - 2 - |digits|] == '[' then
        Some(ParseDecimal(digits))
      else None
    else None
  }

  /** The grouping label "{ProcName} ({Path}) - [{PID}]". */
  function FormatGroupKey(procName: string, path: string, pid: nat): (key: string)
    ensures |key| == |procName| + |path| + |NatToDecimal(pid)| + 8
    ensures key[..|procName|] == procName
  {
    procName + " (" + path + ") - [" + NatToDecimal(pid) + "]"
  }

  /**
   * A group key starts with the process name and its PID can be read back,
   * so records of different PIDs never share a group.
   */
  lemma GroupKeyReadsBack(procName: string, path: string, pid: nat)
    ensures |procName| <= |FormatGroupKey(procName, path, pid)|
    ensures FormatGroupKey(procName, path, pid)[..|procName|] == procName
    ensures GroupKeyPid(FormatGroupKey(procName, path, pid)) == Some(pid)
  {
    var prefix := procName + " (" + path + ") - ";
    var key := FormatGroupKey(procName, path, pid);
    assert key == prefix + ['['] + NatToDecimal(pid) + [']'];
    GroupKeyPidReadsBack(prefix, NatToDecimal(pid));
    ParseNatToDecimal(pid);
  }

  /** Group keys of different PIDs differ. */
  lemma GroupKeyDistinguishesPid(procName: string, path: string, pid: nat,
                                 procName': string, path': string, pid': nat)
    requires pid != pid'
    ensures FormatGroupKey(procName, path, pid) != FormatGroupKey(procName', path', pid')
  {
    GroupKeyReadsBack(procName, path, pid);
    GroupKeyReadsBack(procName', path', pid');
  }

  /** The digits inside a trailing "[...]" are what GroupKeyPid reads. */
  lemma GroupKeyPidReadsBack(prefix: string, digits: string)
    requires digits != [] && AllDigits(digits)
    ensures GroupKeyPid(prefix + ['['] + digits + [']']) == Some(ParseDecimal(digits))
  {
    var key := prefix + ['['] + digits + [']'];
    assert key[..|key| - 1] == prefix + ['['] + digits;
    TrailingDigitsAfter(prefix, '[', digits);
    assert key[|key| - 2 - |digits|] == '[';
  }

  /**
   * The notifications one refresh raises: "RemotePort" when the port text
   * changed, then "State" when the state name changed, and nothing else.
   */
  function RefreshNotices(oldPort: string, newPort: string,
                          oldState: Option<string>, newState: Option<string>): (r: seq<string>)
    ensures ("RemotePort" in r) <==> oldPort != newPort
    ensures ("State" in r) <==> oldState != newState
    ensures forall i :: 0 <= i < |r| ==> r[i] == "RemotePort" || r[i] == "State"
    ensures |r| <= 2
    ensures |r| == 2 ==> r == ["RemotePort", "State"]
    ensures r == [] <==> oldPort == newPort && oldState == newState
  {
    (if oldPort != newPort then ["RemotePort"] else [])
    + (if oldState != newState then ["State"] else [])
  }

  /**
   * The owner decision of the constructor: ProcName and Path from the owner
   * lookup (its nulls becoming "Unknown", its failure the closed-process
   * markers), then Owner and Icon from the owner module; with no module and
   * PID 0 the record is the System pseudo-process, overriding the lookup.
   */
  method DecideOwner(pid: UInt32, ownerModule: Option<OwnerModule>, lookup: OwnerLookup)
    returns (procName: string, path: string, owner: string, icon: Icon)
    ensures ownerModule.None? && pid == 0 ==>
      procName == SystemName && path == SystemName && owner == SystemName
      && icon == StockIcon(SystemName)
    ensures !(ownerModule.None? && pid == 0) && lookup.LookupFailed? ==>
      procName == ClosedProcessName && path == UnresolvedPath
    ensures !(ownerModule.None? && pid == 0) && lookup.LookupOk? ==>
      procName == lookup.name.GetOr(UnknownName) && path == lookup.path.GetOr(UnknownName)
    ensures ownerModule.None? && pid != 0 ==>
      owner == UnknownName && icon == StockIcon(ErrorIconKey)
    ensures ownerModule.Some? ==>
      owner == ownerModule.value.moduleName && icon == ModuleIcon(ownerModule.value.iconHandle)
  {
    match lookup {
      case LookupOk(name, p) =>
        path := p.GetOr(UnknownName);
        procName := name.GetOr(UnknownName);
      case LookupFailed =>
        procName := ClosedProcessName;
        path := UnresolvedPath;
    }

    if ownerModule.None? {
      if pid == 0 {
        procName := SystemName;
        owner := SystemName;
        path := SystemName;
        icon := StockIcon(SystemName);
      } else {
        owner := UnknownName;
        icon := StockIcon(ErrorIconKey);
      }
    } else {
      icon := ModuleIcon(ownerModule.value.iconHandle);
      owner := ownerModule.value.moduleName;
    }
  }

  class Connection {
    // Notifying properties: each setter stores and then notifies.
    var isAccessDenied: bool
    var isSelected: bool
    var isDead: bool
    var lastError: Option<string>
    var protocol: string
    var state: Option<string>
    var localAddress: string
    var localHostName: Option<string>
    var localPort: string
    var remoteAddress: string
    var remoteHostName: Option<string>
    var remotePort: string
    var isDying: bool
    var isNew: bool

    // Properties with a private setter: set by the constructor, never changed after.
    const groupKey: string
    const icon: Icon
    const pid: UInt32
    const procName: string
    const path: string
    const owner: string

    // Plain public properties: no notification.
    var creationTime: Option<int>
    var lastSeen: int

    /** Every property name passed to NotifyPropertyChanged, oldest first. */
    var notified: seq<string>
    /** Every hostname resolution requested, oldest first. */
    var resolveRequests: seq<HostnameRequest>

    /**
     * Builds the record for entry `e`; `lookup` is what the owner lookup for
     * `e.owningPid` gave, `stateNames` the TCP state enumeration and `now`
     * the clock's reading.
     */
    constructor (e: OwnerModuleEntry, lookup: OwnerLookup, stateNames: map<int, string>, now: int)
      ensures pid == e.owningPid && protocol == e.protocol
      ensures localAddress == e.localAddress && localPort == IntToDecimal(e.localPort)
      ensures remoteAddress == e.remoteAddress && remotePort == FormatPort(e.remotePort)
      ensures state == StateName(stateNames, e.stateCode)
      ensures creationTime == e.creationTime && lastSeen == now
      ensures isNew && !isAccessDenied && !isSelected && !isDead && !isDying
      ensures lastError == None && localHostName == None && remoteHostName == None
      // no owner module and PID 0: the System pseudo-process, whatever the lookup gave
      ensures e.ownerModule.None? && e.owningPid == 0 ==>
        procName == SystemName && path == SystemName && owner == SystemName
        && icon == StockIcon(SystemName)
      // otherwise name and path come from the lookup
      ensures !(e.ownerModule.None? && e.owningPid == 0) && lookup.LookupFailed? ==>
        procName == ClosedProcessName && path == UnresolvedPath
      ensures !(e.ownerModule.None? && e.owningPid == 0) && lookup.LookupOk? ==>
        procName == lookup.name.GetOr(UnknownName) && path == lookup.path.GetOr(UnknownName)
      ensures e.ownerModule.None? && e.owningPid != 0 ==>
        owner == UnknownName && icon == StockIcon(ErrorIconKey)
      ensures e.ownerModule.Some? ==>
        owner == e.ownerModule.value.moduleName && icon == ModuleIcon(e.ownerModule.value.iconHandle)
      ensures groupKey == FormatGroupKey(procName, path, pid)
      // only the IsNew setter notifies; one local, then one remote lookup
      ensures notified == ["IsNew"]
      ensures resolveRequests == [LocalLookup(e.localAddress), RemoteLookup(e.remoteAddress)]
    {
      // the fields the C# constructor writes directly, in the order it writes them
      pid := e.owningPid;
      localPort := IntToDecimal(e.localPort);
      creationTime := e.creationTime;
      localAddress := e.localAddress;
      protocol := e.protocol;
      remoteAddress := e.remoteAddress;
      remotePort := FormatPort(e.remotePort);
      lastSeen := now;
      state := StateName(stateNames, e.stateCode);
      var finalName, finalPath, finalOwner, finalIcon := DecideOwner(e.owningPid, e.ownerModule, lookup);
      procName, path, owner, icon := finalName, finalPath, finalOwner, finalIcon;
      groupKey := FormatGroupKey(finalName, finalPath, e.owningPid);
      // the rest keep the C# defaults (false, null)
      isAccessDenied, isSelected, isDead, isDying, isNew := false, false, false, false, false;
      lastError, localHostName, remoteHostName := None, None, None;
      notified, resolveRequests := [], [];
      new;
      // the calls the C# constructor makes, in its order; of the fields set
      // above they read only the two addresses
      SetIsNew(true);
      ResolveLocalIpToHostname(localAddress);
      ResolveRemoteIpToHostname(remoteAddress);
    }

    /** Raises one change notification carrying `propertyName`. */
    method NotifyPropertyChanged(propertyName: string)
      modifies this`notified
      ensures notified == old(notified) + [propertyName]
    {
      notified := notified + [propertyName];
    }

    /** Asks for the hostname of the remote address `ip`. */
    method ResolveRemoteIpToHostname(ip: string)
      modifies this`resolveRequests
      ensures resolveRequests == old(resolveRequests) + [RemoteLookup(ip)]
    {
      resolveRequests := resolveRequests + [RemoteLookup(ip)];
    }

    /** Asks for the hostname of the local address `ip`. */
    method ResolveLocalIpToHostname(ip: string)
      modifies this`resolveRequests
      ensures resolveRequests == old(resolveRequests) + [LocalLookup(ip)]
    {
      resolveRequests := resolveRequests + [LocalLookup(ip)];
    }

    /**
     * A requested lookup completes with `displayText`: it goes through the
     * matching hostname setter, so the last completion to arrive wins.
     */
    method CompleteHostnameLookup(request: HostnameRequest, displayText: string)
      requires request in resolveRequests
      modifies this`localHostName, this`remoteHostName, this`notified
      ensures request.LocalLookup? ==>
        localHostName == Some(displayText) && remoteHostName == old(remoteHostName)
        && notified == old(notified) + ["LocalHostName"]
      ensures request.RemoteLookup? ==>
        remoteHostName == Some(displayText) && localHostName == old(localHostName)
        && notified == old(notified) + ["RemoteHostName"]
    {
      match request {
        case LocalLookup(_) => SetLocalHostName(Some(displayText));
        case RemoteLookup(_) => SetRemoteHostName(Some(displayText));
      }
    }

    /**
     * Refreshes the record from a later entry `e` for the same connection.
     * Port and state are written (and notified) only when they differ;
     * LastSeen always moves to `now`, silently. When the remote address
     * differs, a remote lookup is requested for the address already stored,
     * and the stored address itself is never replaced.
     */
    method UpdateValues(e: OwnerModuleEntry, stateNames: map<int, string>, now: int)
      modifies this`remotePort, this`state, this`lastSeen, this`notified, this`resolveRequests
      ensures remotePort == FormatPort(e.remotePort)
      ensures state == StateName(stateNames, e.stateCode)
      ensures lastSeen == now
      ensures notified == old(notified) + RefreshNotices(old(remotePort), remotePort, old(state), state)
      ensures resolveRequests == old(resolveRequests)
        + (if old(remoteAddress) != e.remoteAddress then [RemoteLookup(old(remoteAddress))] else [])
    {
      if remoteAddress != e.remoteAddress {
        ResolveRemoteIpToHostname(remoteAddress);
      }

      var newPort := FormatPort(e.remotePort);
      if remotePort != newPort {
        SetRemotePort(newPort);
      }

      var newState := StateName(stateNames, e.stateCode);
      if state != newState {
        SetState(newState);
      }

      SetLastSeen(now);
    }

    method SetIsAccessDenied(value: bool)
      modifies this`isAccessDenied, this`notified
      ensures isAccessDenied == value && notified == old(notified) + ["IsAccessDenied"]
    {
      isAccessDenied := value;
      NotifyPropertyChanged("IsAccessDenied");
    }

    method SetIsSelected(value: bool)
      modifies this`isSelected, this`notified
      ensures isSelected == value && notified == old(notified) + ["IsSelected"]
    {
      isSelected := value;
      NotifyPropertyChanged("IsSelected");
    }

    method SetIsDead(value: bool)
      modifies this`isDead, this`notified
      ensures isDead == value && notified == old(notified) + ["IsDead"]
    {
      isDead := value;
      NotifyPropertyChanged("IsDead");
    }

    method SetLastError(value: Option<string>)
      modifies this`lastError, this`notified
      ensures lastError == value && notified == old(notified) + ["LastError"]
    {
      lastError := value;
      NotifyPropertyChanged("LastError");
    }

    method SetProtocol(value: string)
      modifies this`protocol, this`notified
      ensures protocol == value && notified == old(notified) + ["Protocol"]
    {
      protocol := value;
      NotifyPropertyChanged("Protocol");
    }

    method SetState(value: Option<string>)
      modifies this`state, this`notified
      ensures state == value && notified == old(notified) + ["State"]
    {
      state := value;
      NotifyPropertyChanged("State");
    }

    method SetLocalAddress(value: string)
      modifies this`localAddress, this`notified
      ensures localAddress == value && notified == old(notified) + ["LocalAddress"]
    {
      localAddress := value;
      NotifyPropertyChanged("LocalAddress");
    }

    method SetLocalHostName(value: Option<string>)
      modifies this`localHostName, this`notified
      ensures localHostName == value && notified == old(notified) + ["LocalHostName"]
    {
      localHostName := value;
      NotifyPropertyChanged("LocalHostName");
    }

    method SetLocalPort(value: string)
      modifies this`localPort, this`notified
      ensures localPort == value && notified == old(notified) + ["LocalPort"]
    {
      localPort := value;
      NotifyPropertyChanged("LocalPort");
    }

    method SetRemoteAddress(value: string)
      modifies this`remoteAddress, this`notified
      ensures remoteAddress == value && notified == old(notified) + ["RemoteAddress"]
    {
      remoteAddress := value;
      NotifyPropertyChanged("RemoteAddress");
    }

    method SetRemoteHostName(value: Option<string>)
      modifies this`remoteHostName, this`notified
      ensures remoteHostName == value && notified == old(notified) + ["RemoteHostName"]
    {
      remoteHostName := value;
      NotifyPropertyChanged("RemoteHostName");
    }

    method SetRemotePort(value: string)
      modifies this`remotePort, this`notified
      ensures remotePort == value && notified == old(notified) + ["RemotePort"]
    {
      remotePort := value;
      NotifyPropertyChanged("RemotePort");
    }

    method SetIsDying(value: bool)
      modifies this`isDying, this`notified
      ensures isDying == value && notified == old(notified) + ["IsDying"]
    {
      isDying := value;
      NotifyPropertyChanged("IsDying");
    }

    method SetIsNew(value: bool)
      modifies this`isNew, this`notified
      ensures isNew == value && notified == old(notified) + ["IsNew"]
    {
      isNew := value;
      NotifyPropertyChanged("IsNew");
    }

    /** A plain property: stores the value and raises nothing. */
    method SetCreationTime(value: Option<int>)
      modifies this`creationTime
      ensures creationTime == value && notified == old(notified)
    {
      creationTime := value;
    }

    /** A plain property: stores the value and raises nothing. */
    method SetLastSeen(value: int)
      modifies this`lastSeen
      ensures lastSeen == value && notified == old(notified)
    {
      lastSeen := value;
    }
  }

  /**
   * Two refreshes in a row with the same remote port and state: together they
   * notify only what the first one did, and they leave every field as the
   * first left it except LastSeen. A differing remote address is re-requested
   * by both, because the stored address is never replaced.
   */
  method RefreshTwice(c: Connection, first: OwnerModuleEntry, second: OwnerModuleEntry,
                      stateNames: map<int, string>, firstNow: int, secondNow: int)
    requires first.remotePort == second.remotePort && first.stateCode == second.stateCode
    modifies c`remotePort, c`state, c`lastSeen, c`notified, c`resolveRequests
    ensures c.notified == old(c.notified)
      + RefreshNotices(old(c.remotePort), FormatPort(first.remotePort),
                       old(c.state), StateName(stateNames, first.stateCode))
    ensures c.remotePort == FormatPort(first.remotePort)
    ensures c.state == StateName(stateNames, first.stateCode)
    ensures c.lastSeen == secondNow
    ensures c.remoteAddress == old(c.remoteAddress)
    ensures c.resolveRequests == old(c.resolveRequests)
      + (if old(c.remoteAddress) != first.remoteAddress then [RemoteLookup(old(c.remoteAddress))] else [])
      + (if old(c.remoteAddress) != second.remoteAddress then [RemoteLookup(old(c.remoteAddress))] else [])
  {
    c.UpdateValues(first, stateNames, firstNow);
    ghost var afterFirst := c.notified;
    c.UpdateValues(second, stateNames, secondNow);
    assert c.notified == afterFirst;
  }
}
