# Connection record of the firewall console, in Dafny

This project models the `Connection` view-model of the Windows Firewall
Notifier console (`Console/Helpers/ViewModels/Connection.cs`). A `Connection`
is one row of the live connection list. It is built from one entry of the
operating system's owner-module connection table, refreshed from later entries
for the same connection, and reports every property write to its observers.

The model is the class `ViewModels.Connection`, with one field per C#
property. Two logs on the object stand for what the record does to the
outside world:

- `notified` lists the property names passed to `NotifyPropertyChanged`, in
  order. It stands for the `PropertyChanged` event.
- `resolveRequests` lists the reverse-DNS lookups the record asked for, in
  order: `LocalLookup(ip)` or `RemoteLookup(ip)`. A completion is a separate
  call, `CompleteHostnameLookup`, which goes through the hostname setters.

Things the record gets from outside become parameters:

- the process-owner lookup becomes `OwnerLookup`: a name and a path, either of
  which may be null, or `LookupFailed` for any exception;
- the TCP state enumeration becomes a `map<int, string>` (a code it does not
  define gives null, `None`);
- the clock becomes the `now` argument.

The strings that can be null in the C# code are `Option<string>`: State,
LastError, LocalHostName, RemoteHostName, and the name and path the owner
lookup gives. A null `CreationTime` or owner module is `None` as well. A PID is
a `uint`. Ports are `int`,
printed as `int.ToString()` prints them. The decimal printing (module
`Decimal`) comes with its parser, so the proofs can show that printing loses
nothing.

What is proved:

- the remote port text is empty exactly for port -1, and otherwise reads back
  as the port;
- two ports give the same text only when they are equal, so "the port text
  changed" means "the port changed";
- the group key `"{ProcName} ({Path}) - [{PID}]"` is built from the final name
  and path, starts with the name, and the PID can be read back from it;
- the owner decision table of the constructor holds for every combination of
  lookup outcome, owner module and PID;
- the constructor writes every field, raises one notification (`IsNew`) and
  asks for one local lookup, then one remote lookup;
- `UpdateValues` writes only what its frame names. It notifies `RemotePort` or
  `State` exactly when that value changed, and it always moves `LastSeen`
  without a notification;
- a second refresh with the same port and state raises nothing;
- every notifying setter raises exactly one notification under its own name,
  even when the value is unchanged. `CreationTime` and `LastSeen` raise none.

As written, `UpdateValues` compares the stored remote address with the
entry's. When they differ it asks for a lookup of the stored (old) address
and never replaces it. The model keeps this behaviour. One consequence is
proved in `RefreshTwice`: every later refresh with a different remote address
asks for the same old lookup again.

Three more facts about `Connection.cs` that the model keeps:

- The owner lookup runs for every PID, PID 0 included (line 48). PID 0 becomes
  "System" only when the entry has no owner module (lines 58-66).
- A changed remote address triggers a lookup of the stored, old address, not
  the entry's new one (lines 140-143).
- The record only raises `PropertyChanged`. It has no lifecycle state machine
  of its own: `IsNew`, `IsDying` and `IsDead` are plain notifying flags
  (lines 224-236, 115-120).

## Model

| member | source | states |
|---|---|---|
| `Decimal.NatToDecimal` | Console/Helpers/ViewModels/Connection.cs:79 | a PID prints as a non-empty string of decimal digits with no leading zero |
| `Decimal.ParseNatToDecimal` | Console/Helpers/ViewModels/Connection.cs:79 | reading back the digits of a PID gives the PID |
| `Decimal.IntToDecimal` | Console/Helpers/ViewModels/Connection.cs:34 | `int.ToString()` is non-empty and starts with '-' exactly for negative values |
| `Decimal.IntDecimalRoundTrip` | Console/Helpers/ViewModels/Connection.cs:34 | parsing the printed integer gives the integer back |
| `Decimal.IntToDecimalInjective` | Console/Helpers/ViewModels/Connection.cs:34 | two integers print alike if and only if they are equal |
| `ViewModels.FormatPort` | Console/Helpers/ViewModels/Connection.cs:41 | the remote port text is empty if and only if the port is -1 |
| `ViewModels.FormatPortReadsBack` | Console/Helpers/ViewModels/Connection.cs:41 | any port other than -1 reads back from its text |
| `ViewModels.FormatPortInjective` | Console/Helpers/ViewModels/Connection.cs:41 | two ports give the same remote port text if and only if they are equal; so while the stored text is the formatted port of an earlier entry, as the constructor and `UpdateValues` leave it, comparing texts in the refresh (lines 145-149) compares ports |
| `ViewModels.StateName` | Console/Helpers/ViewModels/Connection.cs:43 | the state name is present exactly for a code the enumeration defines, and then it is that code's name; null otherwise (also used by the refresh at line 151) |
| `ViewModels.FormatGroupKey` | Console/Helpers/ViewModels/Connection.cs:79 | the group key starts with ProcName and is exactly eight characters longer than ProcName, Path and the PID's digits together (the separators " (", ") - [" and "]") |
| `Wrappers.Option.GetOr` | Console/Helpers/ViewModels/Connection.cs:49-50 | C#'s `??`: a present value is kept, a null gives the default |
| `ViewModels.GroupKeyReadsBack` | Console/Helpers/ViewModels/Connection.cs:79 | the group key starts with ProcName and its trailing "[…]" reads back as the PID |
| `ViewModels.GroupKeyDistinguishesPid` | Console/Helpers/ViewModels/Connection.cs:79 | records with different PIDs never get the same group key |
| `ViewModels.RefreshNotices` | Console/Helpers/ViewModels/Connection.cs:145-155 | a refresh notifies "RemotePort" if and only if the port text changed, then "State" if and only if the state name changed, and nothing else; nothing at all exactly when both are unchanged; at most two notifications |
| `ViewModels.DecideOwner` | Console/Helpers/ViewModels/Connection.cs:45-77 | the owner decision table: a failed lookup gives "[Unknown or closed process]"/"Unresolved"; null lookup entries become "Unknown"; no owner module and PID 0 gives "System" for name, path and owner and the "System" icon, overriding the lookup; no module and PID ≠ 0 gives owner "Unknown" and the "?error" icon and keeps the lookup; a module gives its name as owner and its icon |
| `ViewModels.Connection.constructor` | Console/Helpers/ViewModels/Connection.cs:30-80 | all identity fields are copied from the entry, the local port is printed and the remote port formatted, the state is the code's name, LastSeen is now and IsNew is true; the owner table holds; GroupKey is built from the final ProcName, Path and PID; the only notification is "IsNew"; one local lookup of the local address, then one remote lookup of the remote address |
| `ViewModels.Connection.NotifyPropertyChanged` | Console/Helpers/ViewModels/Connection.cs:22-28 | appends exactly the given property name to the notification log |
| `ViewModels.Connection.ResolveRemoteIpToHostname` | Console/Helpers/ViewModels/Connection.cs:82-90 | records one remote lookup for the given address and changes nothing else |
| `ViewModels.Connection.ResolveLocalIpToHostname` | Console/Helpers/ViewModels/Connection.cs:91-99 | records one local lookup for the given address and changes nothing else |
| `ViewModels.Connection.CompleteHostnameLookup` | Console/Helpers/ViewModels/Connection.cs:84-98 | a completed local (remote) lookup stores its display text in LocalHostName (RemoteHostName) through the setter, leaves the other hostname alone and notifies exactly that property |
| `ViewModels.Connection.UpdateValues` | Console/Helpers/ViewModels/Connection.cs:136-158 | afterwards RemotePort is the formatted new port, State the new state name and LastSeen is now; "RemotePort"/"State" are notified only if the values differed; a remote lookup of the old stored address is requested exactly when the entry's remote address differs; no other field (PID, ProcName, Path, Owner, GroupKey, Protocol, local and remote addresses, LocalPort, IsNew, hostnames) is written |
| `ViewModels.RefreshTwice` | Console/Helpers/ViewModels/Connection.cs:136-158 | two refreshes with the same port and state notify only what the first did and leave every field as after one refresh except LastSeen; a differing remote address is requested twice, again for the old address |
| `ViewModels.Connection.SetIsAccessDenied` | Console/Helpers/ViewModels/Connection.cs:101-106 | stores the value and notifies "IsAccessDenied" once, unconditionally |
| `ViewModels.Connection.SetIsSelected` | Console/Helpers/ViewModels/Connection.cs:108-113 | stores the value and notifies "IsSelected" once, unconditionally |
| `ViewModels.Connection.SetIsDead` | Console/Helpers/ViewModels/Connection.cs:115-120 | stores the value and notifies "IsDead" once, unconditionally |
| `ViewModels.Connection.SetLastError` | Console/Helpers/ViewModels/Connection.cs:122-127 | stores the value and notifies "LastError" once, unconditionally |
| `ViewModels.Connection.SetProtocol` | Console/Helpers/ViewModels/Connection.cs:160-165 | stores the value and notifies "Protocol" once, unconditionally |
| `ViewModels.Connection.SetState` | Console/Helpers/ViewModels/Connection.cs:167-172 | stores the value and notifies "State" once, unconditionally |
| `ViewModels.Connection.SetLocalAddress` | Console/Helpers/ViewModels/Connection.cs:174-179 | stores the value and notifies "LocalAddress" once, unconditionally |
| `ViewModels.Connection.SetLocalHostName` | Console/Helpers/ViewModels/Connection.cs:181-186 | stores the value and notifies "LocalHostName" once, unconditionally |
| `ViewModels.Connection.SetLocalPort` | Console/Helpers/ViewModels/Connection.cs:189-194 | stores the value and notifies "LocalPort" once, unconditionally |
| `ViewModels.Connection.SetRemoteAddress` | Console/Helpers/ViewModels/Connection.cs:196-203 | stores the value and notifies "RemoteAddress" once, unconditionally |
| `ViewModels.Connection.SetRemoteHostName` | Console/Helpers/ViewModels/Connection.cs:205-210 | stores the value and notifies "RemoteHostName" once, unconditionally |
| `ViewModels.Connection.SetRemotePort` | Console/Helpers/ViewModels/Connection.cs:212-217 | stores the value and notifies "RemotePort" once, unconditionally |
| `ViewModels.Connection.SetIsDying` | Console/Helpers/ViewModels/Connection.cs:224-229 | stores the value and notifies "IsDying" once, unconditionally |
| `ViewModels.Connection.SetIsNew` | Console/Helpers/ViewModels/Connection.cs:231-236 | stores the value and notifies "IsNew" once, unconditionally |
| `ViewModels.Connection.SetCreationTime` | Console/Helpers/ViewModels/Connection.cs:220 | stores the value and raises no notification |
| `ViewModels.Connection.SetLastSeen` | Console/Helpers/ViewModels/Connection.cs:222 | stores the value and raises no notification |

Each setter's frame names only its own field and the notification log, so
nothing else changes. GroupKey, Icon, PID, ProcName, Path and Owner have
private setters in C#, and only the constructor writes them. In the model they
are `const` fields, so the group-key fact the constructor ensures holds for
the record's whole life.

## Left out

- The process-owner lookup through WMI, and its static per-batch cache
  `LocalOwnerWMICache` (line 20, line 48), are operating-system I/O. Only the lookup's
  result is modelled, as the `OwnerLookup` argument. An exception of any kind
  (including a null or short result array) is `LookupFailed`.
- Icons (`IconHelper.GetIcon`, `BitmapSource`) are UI objects. The model keeps only
  which icon was chosen: the stock key "System" or "?error", or the owner
  module's own icon, identified by a number.
- Asynchronous DNS (`DnsResolver.ResolveIpAddress`, `async void`,
  `ConfigureAwait`) is reduced to a logged request and a later completion
  call. Threading, the order in which completions arrive, and lookups that
  never complete are not modelled.
- A lookup is assumed never to complete during the call that requested it.
  When `DnsResolver.ResolveIpAddress` returns a task that has already
  finished, the `await` continues at once (lines 86-87, 95-96). The hostname
  setter then runs inside the constructor or inside `UpdateValues`, and its
  notification lands between theirs. The model's constructor and
  `UpdateValues` never write a hostname.
- `Enum.GetName` over `MIB_TCP_STATE`: the enumeration is not part of this
  model. It is passed in as a table from code to name. The exception
  `Enum.GetName` would throw for a code of the wrong underlying type is not
  modelled.
- `DateTime.Now` is passed in as an integer `now`. A `DateTime?` creation time
  is an optional integer.
- The `PropertyChanged` event becomes the `notified` log of raised
  notifications. The null check for "no subscriber" and the dispatch to
  subscribers are not modelled, so the constructor's "IsNew" notification is
  logged even though nobody can be subscribed at that point.
- `OwnerModule.ModuleName` is taken to be non-null. A null module name would
  leave Owner null.
- The entry's Protocol, LocalAddress and RemoteAddress are taken to be
  non-null plain strings, and so are the Protocol, LocalAddress, LocalPort,
  RemoteAddress and RemotePort properties. Ports are plain integers. A null in
  any of these (a `NullReferenceException` on `ToString()`, or a null compared
  in `UpdateValues`) is not modelled.
- The connection registry, snapshot reconciliation, the lifecycle
  transitions and record removal do not live in this file, so they are not
  part of this model.
- The commented-out firewall-rule property (line 134) has no behaviour to model.
