# Devices-Auth: a Dafny model of the C++ device authentication classes

Devices-Auth gates an application on the machine it runs on. Three C++ classes do the work.
`CDeviceAuthManager` opens a WMI session to `root\CIMV2`. `CHardwareAuth` and `CSoftwareAuth`
ask WMI for one property of one class, for example the `SerialNumber` of `Win32_BIOS`.
`CSoftwareAuth` also asks Windows for the SID of the current user and wraps `LogonUser`. Each answer is compared with a list of
acceptable values that the caller supplies.

The model has three parts.

- **Query rendering** (`Wql`, `Query`). `Wql` holds the header's string constants and the
  `%s` substitution that `StringCchPrintf` applies to them. It also holds the `=` / `<>`
  filter formulas and the table that maps each public check to a class, a property and an
  optional filter. `Query` renders the where-clause and the query exactly as the code does:
  an empty where-clause selects `WQUERY_BASIC`. Both texts are cut to a buffer of
  `MAX_LOADSTRING` characters, which is a positive parameter here.
- **The match loop** (`Matching`). The seven `Auth*` query checks share one loop, written
  once as `MatchRecords` with the nested candidate loop `MatchCandidates`. WMI records are a
  `seq<Option<string>>`: `None` is a record whose `Get` failed. `AuthUserAccountSID` reuses
  the candidate loop on its one SID string (module `Account`).
- **Session accounting** (`Session`). `DeviceAuthManager` is a class. Its fields say whether
  `lpLoc` and `lpServices` are non-null and whether `hRes` holds a success code. It also
  counts how often the locator, the services, COM, query enumerators and records are
  acquired and released. Every platform step is a success/failure parameter. The class runs
  `ConnectSetup`, `GetClassObject` and `DisconnectWMI` as written. Lifecycle methods then
  show what the destructor leaves behind: a double release after some failures, and an
  enumerator that is never released.

The platform services are parameters. `ExecQuery` is a function from the query text to
success. The enumeration is the finite record sequence. The account APIs are the outcome
values of `AuthUserAccountSid` and `AuthUserAccount`.

### Behaviour of the code worth knowing

- An over-long query or where-clause is cut off, not rejected. The `StringCchPrintf` result
  is ignored (C++/DeviceAuth.cpp:46,50,260). Once cut, a filtered query can be the same
  text as the unfiltered one (`Query.TruncatedQueriesDiffer`).
- A property whose `Get` fails is skipped. A successful `Get` is read as a string value,
  with no null-to-empty coalescing.
- The result of `CoInitializeEx` is overwritten before it is checked (C++/DeviceAuth.cpp:76-77),
  yet COM is uninitialised as if it had succeeded.
- A failed connect does not always release everything the attempt acquired. After a
  `CoInitializeSecurity` failure, COM stays initialised until the destructor runs.
- The destructor then releases a second time whatever a failure path already gave back,
  and the checks call through `lpServices` whatever the setup outcome (see Findings).

## Model

| member | source | states |
|---|---|---|
| `Wql.BasicTemplateExpansion` | C++/DeviceAuth.h:12 | WQUERY_BASIC, filled with a class name, is "SELECT * FROM " followed by that name |
| `Wql.WhereTemplateExpansion` | C++/DeviceAuth.h:13 | WQUERY_WHERE, filled with a class name and a clause, is "SELECT * FROM " + class + " WHERE " + clause |
| `Wql.FormatPlainPrefix` | C++/DeviceAuth.h:11-13 | the `%s` formatter copies text that contains no `%` unchanged |
| `Wql.FormatDirective` | C++/DeviceAuth.h:12 | a leading `%s` takes the first argument and continues with the rest |
| `Wql.ClauseExpansion` | C++/DeviceAuth.h:13 | the " WHERE %s" tail of WQUERY_WHERE expands to " WHERE " + clause |
| `Wql.RenderFilter` | C++/DeviceAuth.cpp:260 | the where-clause StringCchPrintf writes into lpWhere (also at 304, 348, 392) is WFORMULA_MATCH / WFORMULA_MISSMATCH filled with property and value: `prop = 'val'` or `prop <> 'val'`, the value quoted and not escaped |
| `Wql.SpecOf` | C++/DeviceAuth.h:15-22 | the check table: exactly the four disk checks carry a filter, always `InterfaceType` against `IDE`; `=` for the system-disk checks and `<>` for the external ones; `PNPDeviceID` exactly for the two `Ex` checks, `SerialNumber` otherwise; `Win32_OperatingSystem` exactly for the one check CSoftwareAuth declares |
| `Query.Truncate` | C++/DeviceAuth.cpp:35-50 | what a buffer of `capacity` characters keeps: a prefix of at most `capacity - 1` characters, the whole text when it fits, exactly `capacity - 1` characters when it does not |
| `Query.RenderQueryFollowsTemplates` | C++/DeviceAuth.cpp:44-51 | the contract of `Query.RenderQuery`: an empty where-clause renders WQUERY_BASIC filled with the class, any other renders WQUERY_WHERE filled with class and clause |
| `Query.RenderQueryInjective` | C++/DeviceAuth.cpp:44-51 | before truncation, two where-clauses that render the same query for a class are equal, so an uncut filtered query never collides with the unfiltered one |
| `Query.TruncatedQueriesDiffer` | C++/DeviceAuth.cpp:44-53 | what ExecQuery receives with a non-empty where-clause differs from the unfiltered query if and only if the buffer holds more than the "SELECT * FROM " + class text plus its terminator |
| `Query.WhereFor` | C++/DeviceAuth.cpp:258-260 | the lpWhere buffer is shorter than MAX_LOADSTRING; empty for a check without a filter; for a disk check a prefix of its clause, and the whole clause when it fits |
| `Query.QueryText` | C++/DeviceAuth.cpp:35-51 | the text sent to ExecQuery is shorter than MAX_LOADSTRING, a prefix of the rendered query, and equal to it when it fits |
| `Query.QueryFor` | C++/DeviceAuth.cpp:258-261 | the text a check's query reaches ExecQuery as: shorter than MAX_LOADSTRING; without a filter a prefix of the basic query; the whole query with the whole clause when it fits; for a filtered check always a prefix of the full filtered query (`Query.QueryForFilteredPrefix`) |
| `Query.QueryForFilteredPrefix` | C++/DeviceAuth.cpp:258-261 | whatever the buffer size, a filtered check sends a prefix of its full filtered query: lpWhere is cut first (cpp:260), then lpQuery (cpp:50), and with an empty lpWhere the basic query (cpp:44-46) is still such a prefix |
| `Query.CheckQueryText` | C++/DeviceAuth.cpp:174-434 | with a buffer of at least 59 characters, the exact query text of each of the seven checks |
| `Query.TruncatedFiltersDiffer` | C++/DeviceAuth.cpp:260 | the `=` and `<>` clauses on the same property stay different after truncation if and only if the buffer keeps the operator's first character |
| `Matching.ValuesSound` | C++/DeviceAuth.cpp:182 | a value is among the successfully read property values exactly when some record's Get returned it |
| `Matching.AnyMatchByValues` | C++/DeviceAuth.cpp:182-198 | a match exists exactly when some successfully read value is an allowed candidate: failed Gets are skipped |
| `Matching.AnyMatchSnoc` | C++/DeviceAuth.cpp:178-202 | one more record adds a match exactly when its Get succeeded with an allowed value |
| `Matching.AnyMatchMonotone` | C++/DeviceAuth.cpp:191-194 | bResult only goes FALSE to TRUE: a match among the first j records remains one among the first k |
| `Matching.NoCandidatesNoMatch` | C++/DeviceAuth.cpp:188 | with iCount not positive nothing matches, whatever the records |
| `Matching.MatchCandidates` | C++/DeviceAuth.cpp:188-196 | the candidate loop with `break` finds the value exactly when it is among the first iCount candidates; none is read when iCount is not positive |
| `Matching.MatchRecords` | C++/DeviceAuth.cpp:176-202 | the enumeration loop: bResult exactly when some record's value matches an allowed candidate; it runs to the end and every record is released once |
| `Session.DeviceAuthManager.constructor` | C++/DeviceAuth.cpp:162-165 | the state ConnectSetup leaves after each outcome of its steps, CoInitializeEx included: COM counted as initialised only when CoInitializeEx succeeded, uninitialised once per failure after CoInitializeSecurity; connected exactly when every step after CoInitializeEx succeeded, since its result is never checked |
| `Session.DeviceAuthManager.ConnectSetup` | C++/DeviceAuth.cpp:71-147 | CoInitializeEx adds an initialisation only when it succeeds and does not decide the result; each failure path after it releases what the attempt had acquired (nothing / COM / locator and COM / services, locator and COM), uninitialising COM whether or not it was initialised, and leaves the released pointers non-null |
| `Session.DeviceAuthManager.DisconnectWMI` | C++/DeviceAuth.cpp:148-161 | releases each non-null pointer and uninitialises COM once; from a state where every reference is accounted for, every count ends balanced exactly when CoInitializeEx had succeeded |
| `Session.DeviceAuthManager.Destroy` | C++/DeviceAuth.cpp:166-169 | the destructor does exactly what DisconnectWMI does |
| `Session.DeviceAuthManager.GetClassObject` | C++/DeviceAuth.cpp:31-70 | succeeds exactly when the where-clause passes StringCchLength and ExecQuery accepts the rendered query; a failed ExecQuery releases the services, the locator and COM without nulling; success obtains an enumerator |
| `Session.DeviceAuthManager.Authenticate` | C++/DeviceAuth.cpp:170-470 | any of the seven query checks: TRUE exactly when the check's query runs, bResult exactly when it ran and some record matches; a failed query tears the session down |
| `Session.DeviceAuthManager.Corrected` | C++/DeviceAuth.cpp:162-165 | a corrected session starts with every reference accounted for, and is connected exactly when every step, CoInitializeEx included, succeeded |
| `Session.DeviceAuthManager.ConnectSetupCorrected` | C++/DeviceAuth.cpp:71-147 | the corrected setup: stops at a failed CoInitializeEx, succeeds exactly when every step does, leaves both pointers null after a failure, and every reference accounted for on every path |
| `Session.DeviceAuthManager.GetClassObjectCorrected` | C++/DeviceAuth.cpp:53-67 | the corrected query: a failed ExecQuery releases each pointer exactly once and nulls both; success or a rejected where-clause leaves both pointers set and unreleased; every reference stays accounted for |
| `Session.DeviceAuthManager.AuthenticateCorrected` | C++/DeviceAuth.cpp:170-209 | the corrected check: FALSE with bResult FALSE and nothing changed on a session that is not connected; otherwise the same result as Authenticate, one enumerator acquired and released after a successful query, each record fetched and released once, and every reference kept accounted for |
| `Session.DeviceAuthManager.DisconnectWMICorrected` | C++/DeviceAuth.cpp:148-161 | the corrected teardown: releases each non-null pointer and uninitialises COM only when CoInitializeEx succeeded, so from an accounted state every count ends balanced |
| `Session.SetupLifecycle` | C++/DeviceAuth.cpp:71-161 | construction then destruction as written, for every outcome of every step: COM initialised once when CoInitializeEx succeeded and uninitialised once more than the failures after CoInitializeSecurity; so a failed CoInitializeEx always leaves COM uninitialised more often than initialised; balanced after a successful CoInitializeEx followed by success or a CoInitializeSecurity failure; each interface obtained by a failed setup released twice |
| `Session.QueryLifecycle` | C++/DeviceAuth.cpp:61-66 | one query check then destruction, as written: success leaks the enumerator; failure releases locator, services and COM twice |
| `Session.UnguardedChecksLifecycle` | C++/DeviceAuth.cpp:162-165 | a check on a session as written calls ExecQuery through a live lpServices exactly when every setup step after CoInitializeEx succeeded, and a second check does exactly when the first query also succeeded |
| `Session.CorrectedLifecycle` | C++/DeviceAuth.cpp:162-209 | the corrected session for every outcome of every step, CoInitializeEx included: a query runs only after a full setup, the same check results otherwise, and every count balanced after teardown |
| `Session.ComputerSerialExample` | C++/DeviceAuth.cpp:170-210 | a BIOS serial "X1234" checked against the candidate "X1234" succeeds with a match |
| `Session.EmptyDiskQueryExample` | C++/DeviceAuth.cpp:254-297 | a system-disk query with no records succeeds without a match |
| `Account.AuthUserAccountSid` | C++/DeviceAuth.cpp:471-523 | FALSE with bResult FALSE when GetUserName, LookupAccountName or ConvertSidToStringSid fails; otherwise TRUE, bResult exactly when the SID string is among the first iCount candidates, and the SID buffer freed once |
| `Account.AuthUserAccountToken` | C++/DeviceAuth.cpp:524-527 | returns the LogonUser result and the token it produced |
| `Account.AuthUserAccount` | C++/DeviceAuth.cpp:528-535 | returns the LogonUser result and calls CloseHandle exactly once: on the token after success, on NULL after failure |

## Findings

| source | as written | input that shows it | evidently intended | confidence | as-written member | corrected member |
|---|---|---|---|---|---|---|
| C++/DeviceAuth.cpp:120-124 | a ConnectServer failure releases lpLoc and uninitialises COM; the pointer stays non-null, so the destructor releases and uninitialises again | CoInitializeSecurity and CoCreateInstance succeed, ConnectServer fails | each reference is released exactly once | high, not executed | `Session.SetupLifecycle` | `Session.DeviceAuthManager.ConnectSetupCorrected` |
| C++/DeviceAuth.cpp:138-144 | a CoSetProxyBlanket failure releases both pointers and COM, then the destructor does it again | every step succeeds except CoSetProxyBlanket | each reference is released exactly once | high, not executed | `Session.SetupLifecycle` | `Session.DeviceAuthManager.ConnectSetupCorrected` |
| C++/DeviceAuth.cpp:103-107 | a CoCreateInstance failure calls CoUninitialize, and the destructor calls it a second time | CoInitializeSecurity succeeds, CoCreateInstance fails | COM is uninitialised once per initialisation | high, not executed | `Session.SetupLifecycle` | `Session.DeviceAuthManager.ConnectSetupCorrected` |
| C++/DeviceAuth.cpp:61-66 | a failed ExecQuery releases the services and the locator and uninitialises COM without nulling; the destructor repeats all three | a connected session whose ExecQuery fails | each reference is released exactly once | high, not executed | `Session.QueryLifecycle` | `Session.DeviceAuthManager.GetClassObjectCorrected` |
| C++/DeviceAuth.cpp:173-209 | the enumerator returned by ExecQuery is never released | any successful query check | the enumerator is released after the loop | high, not executed | `Session.QueryLifecycle` | `Session.DeviceAuthManager.AuthenticateCorrected` |
| C++/DeviceAuth.cpp:76-77 | the CoInitializeEx result is overwritten unchecked, yet CoUninitialize runs as if COM had been initialised (cpp:105, 123, 142, 160) | a thread already in a single-threaded apartment, where CoInitializeEx with COINIT_MULTITHREADED fails with RPC_E_CHANGED_MODE | CoUninitialize only balances a successful CoInitializeEx | medium, not executed | `Session.SetupLifecycle` | `Session.DeviceAuthManager.DisconnectWMICorrected` |
| C++/DeviceAuth.cpp:164 | the constructor discards the ConnectSetup result, and GetClassObject calls lpServices->ExecQuery unconditionally (cpp:53), so after a failed setup or a failed query a check calls through a null or released pointer | a second session object in the same process, where CoInitializeSecurity returns RPC_E_TOO_LATE; or any check after a failed query | a check on a session that is not connected returns FALSE with bResult FALSE | high, not executed | `Session.UnguardedChecksLifecycle` | `Session.DeviceAuthManager.AuthenticateCorrected` |

The corrected members are set up by `Session.DeviceAuthManager.Corrected` and used together in
`Session.CorrectedLifecycle`. That method proves every count balanced for every outcome of
every step. The corrected setup checks `CoInitializeEx` like every other step. The corrected
failure paths release and null the interface pointers and leave `CoUninitialize` to
`DisconnectWMICorrected`, which calls it only when `CoInitializeEx` succeeded. The
corrected check returns FALSE on a session that is not connected. The as-written members are
kept for the checks themselves, because their results do not depend on the correction.

## Left out

- The COM/WMI calls (`CoInitializeSecurity`, `CoCreateInstance`, `ConnectServer`, `CoSetProxyBlanket`, `ExecQuery`, `IEnumWbemClassObject::Next`, `IWbemClassObject::Get`, `VariantClear`, `Release`): platform services, modelled only as outcomes, a record sequence and release counts.
- The Win32 account APIs (`GetUserName`, `LookupAccountName`, `ConvertSidToStringSid`, `LogonUser`, `CloseHandle`, `LocalFree`): OS services, reduced to their outcome, the one SID string and the handles passed to `CloseHandle`.
- Account.AuthUserAccountToken: what LogonUser writes to the handle on failure is not modelled; the handle is left as the caller passed it.
- Session.DeviceAuthManager.GetClassObject, Session.DeviceAuthManager.Authenticate: require a connected session. What the source does after calling through a null or released `lpServices` is undefined behaviour and is not modelled; `Session.UnguardedChecksLifecycle` states exactly when that call happens (see Findings).
- Matching.MatchRecords, Matching.MatchCandidates, Session.DeviceAuthManager.Authenticate, Account.AuthUserAccountSid: require `iCount` not to exceed the number of candidates. Reading more variadic arguments than were passed is undefined behaviour; the list itself is a sequence, and `va_start` for each record means every record meets the full list.
- The type of the VARIANT: the source reads `bstrVal` without checking it (C++/DeviceAuth.cpp:191), so a null or non-string property is undefined behaviour. The model reads a string after every successful `Get`.
- The difference between `lstrcmp` (C++/DeviceAuth.cpp:451) and `wcscmp`: both are exact string equality here. Locale collation is not modelled.
- `Wql.Format` models only the `%s` directive, the only one the templates use, and the `STRSAFE_E_INSUFFICIENT_BUFFER` result is not modelled because the code ignores it.
- `Next` with `WBEM_INFINITE` may block forever on an unresponsive service; the record sequence is finite.
- The `COINIT_MULTITHREADED` flag and the zeroing of the user, domain and SID buffers (C++/DeviceAuth.cpp:476-489): no logic depends on them.
- Query.Truncate: MAX_LOADSTRING and STRSAFE_MAX_CCH count UTF-16 code units, while the model counts Dafny characters; the cut point differs for characters outside the Basic Multilingual Plane, which none of the constants the code passes contain.
- The value of `MAX_LOADSTRING`, which is not defined in the two files: it is the positive parameter `Query.Capacity`.
- The C# classes (C#/DeviceAuthorization.cs, C#/DeviceAuthenticationDefine.cs) are not part of this model.
