# Verification of the port tunnel

This project is a Dafny model of a reverse tunnel (`port`): a public server on which clients behind NAT
register tcp ports and virtual HTTP hosts, and which hands every visitor that arrives there to a data stream
the client opens for it. It states and proves what the server's redundant indexes, the client's reload and
reconnection, the hand-off of visitors and the byte-level plumbing promise, and where they promise less than
the documentation says. `dafny verify dfyconfig.toml` checks the whole project.

## How the model is organised

| file | what it is |
|---|---|
| `Registry.dfy` | the server's five maps as one value, each critical section of the server's lock as a function on it, and the invariant that ties the maps together |
| `RegistryLaws.dfy` | laws of single critical sections and of every interleaving of logins, late drops, registrations and closes |
| `Server.dfy` | the server as classes whose maps, queues and flags are updated in place; every method is proved equal to the registry function of its critical section |
| `Control.dfy` | the server's read-and-dispatch loop over one control stream |
| `Reload.dfy`, `ReloadExact.dfy` | the messages of a configuration reload, and exactly when they leave the server with the new configuration |
| `Reconnect.dfy` | replacing a session and registering everything again, in any order, with other clients acting in between |
| `Client.dfy`, `ClientLaws.dfy`, `EndToEnd.dfy` | the client as a class (reload loops, request ids, pending table) and the client and server together, with and without refused messages |
| `AutoPorts.dfy` | reconnections of clients that leave some ports to the server |
| `Handoff.dfy`, `HandoffLaws.dfy`, `Waiting.dfy` | visitors, bounded queues, data streams, drain and take-back, interleaved with every registry step; what the hand-off does not promise, and runs that show it; how long a visitor waits |
| `Rpc.dfy` | correlated registration requests over losses, timeouts and reconnections |
| `Proto.dfy`, `ControlStream.dfy` | the frame codec, and many senders sharing one control stream under its lock |
| `Mux.dfy`, `Joins.dfy` | joining two connections, and the counters and closes over many joins |
| `Hosts.dfy`, `Vhost.dfy` | host names, and one connection to the shared HTTP port from its first octet to the copy loops |
| `Config.dfy`, `Text.dfy` | whitelist parsing and printing, order-free comparison, string operations |

Code that updates state in place is imperative here too: classes `Server`, `Session` and `Proxy`, `Client`,
`Conn`, `Direction`, `Reader`, `Writer` and `LineReader`, with loops where the program loops. A walk over a map
is a loop that picks any remaining key, so what is proved holds for every order in which the map may be walked.
Goroutines are modelled as steps of a state machine, one step for each critical section, channel operation or
write; `Mux.Join` interleaves the steps of its two directions directly.

Things the program gets from outside are parameters or free choices: whether a port binds (`bindOk`), whether a
write to a control stream succeeds (`sent`, `notifyOk`, `answered`), which of the messages offered to the client's
writer it takes in time (`takes`) and which answers come back in time (`replies`), whether authentication succeeds
(`verified`), the verdict of the address parser on a local address (`splitOk`), when a timeout fires, and how
many octets a read delivers.

A note for whoever extends the proofs: Dafny 4.11 can derive `false` when one proof sees two map comprehensions with
equal (for instance empty) domains but different values outside them. The proofs here keep the two comprehensions of
the model, the hosts entered by `Registry.Insert` and the queues created by `Handoff.AfterRegistry`, in separate lemmas
by hiding one of the functions.

## What the code does not do, although its documentation suggests it

Each of these is a theorem with its exact condition, not a remark.

- *"Registering a proxy again is idempotent"* (the repository's README.md, line 81; docs/design.md, line 171). A
  repeated request is compared with the stored port, so repeating a request for an automatic port is refused; it
  is idempotent exactly for all other requests (`RegistryLaws.RepeatIsIdempotent`). A request with a different
  configuration under a taken name is refused rather than answered with success (`Registry.RegisterTaken`).
- *"If the configuration does not change, neither do the addresses"* after a reconnection (the repository's
  README.md, line 81). Once the old session is dropped and the table registered again, the addresses come back in
  every order of registration exactly when at most one tcp entry leaves its port to the server and, if there is
  one, its old port is the allocator's first choice among the ports other clients left free
  (`AutoPorts.ReconnectOverRuns`). Two automatic entries can exchange their ports
  (`AutoPorts.AutomaticPortsSwap`). With two logins overlapping a drop that has not run yet, a registration is
  answered OK and its port is then lost even with explicit ports (`RegistryLaws.OverlappingLoginsLoseProxy`); an OK
  answer means that the session holds the name exactly when the key was free or already its own
  (`RegistryLaws.OkMeansHeldExactly`).
- *"Reloading applies the new configuration at once"* holds in every walking order exactly when the server accepts
  every new or changed entry, none of them claims anything still held or claimed by another of them, and those that
  leave their port to the server have room (`ReloadExact.ReloadConvergesExactly`). Room means: among all whitelisted
  ports, and again among those tried before each free port that an entry names, there are at least as many free ports
  as new or changed names that may come to hold one more of them (`ReloadExact.EnoughRoom`); otherwise some order
  leaves an entry without a port, or lets an automatic one take a port that another entry names
  (`ReloadExact.AutomaticTakesNamedPort`). Since registrations precede the closes of removed names, moving a port to a
  new name converges in no order (`ReloadExact.MovedPortNeverConverges`). A close that meets a busy writer is not
  sent, and its proxy then stays (`ClientLaws.RemovedExactly`).
- The comment on the server's drop obliges its caller not to register afterwards; nothing enforces it. A
  registration violates it with effect exactly when its session was dropped, its key is free and its proxy fits
  and binds (`RegistryLaws.UnguardedRegistrationLeaks`; a run is `RegistryLaws.LeakHappens`), and no later run
  reclaims the port unless that session closes the proxy itself (`RegistryLaws.OrphanPersists`).
- Client id and proxy name are joined by a slash without escaping: two pairs share a key exactly when one
  client id continues the other across a slash (`RegistryLaws.KeyCollision`).
- A failed notification takes back another visitor exactly when another one heads the queue, and closes its own
  in any case, even one a stream has already taken (`HandoffLaws.FailureTakesAnotherExactly`; runs are
  `HandoffLaws.WrongTakeBackHappens` and `HandoffLaws.JoinedVisitorIsClosed`).
- A delivery ends in the queue of a removed and drained proxy exactly when the proxy is removed and drained and
  has room: nothing else is checked (`HandoffLaws.LateDeliveryExactly`; a run is
  `HandoffLaws.LateDeliveryHappens`). No later removal closes that visitor
  (`HandoffLaws.AbandonedForGood`, `HandoffLaws.LateVisitorWaits`).
- *A visitor whose inner service cannot be dialled is reset after a timeout* (the repository's README.md, lines
  73-74): nothing resets a queued visitor. Over every run in which its proxy stays live, a visitor leaves the queue
  only because a stream received it or a failed announcement of the same proxy took it back
  (`Waiting.LiveVisitorWaits`), and without one it is still queued and open or a stream has received it
  (`Waiting.NoTimeout`); the stream's timeout closes the stream only. With 32 such visitors every further one is
  turned away (`Waiting.RejectedExactly`), and as long as nobody leaves, for good (`Waiting.FullQueueRejects`).
- Normalizing a host drops one trailing dot, looking a host up drops none: normalization is not idempotent
  (`Hosts.NormalizeIdempotent`, `Hosts.DoubleDotShrinks`), and a domain is found under its own spelling exactly
  when it has neither a colon nor a trailing dot (`Hosts.FoundBySpelling`).
- The frame writer checks no length: a frame is read back exactly when its payload is at most 1 MiB
  (`Proto.FrameRoundTrip`).

## Model

| member | source | states |
|---|---|---|
| `RegistryLaws.RunKeepsInv` | internal/server/server.go:20-34 | after every interleaving of logins, drops, registrations and closes, replaced sessions included: the global table and the session tables hold the same proxies, each under its own key and in its own session; the port index is exactly the live tcp proxies, the host index exactly the live http proxies under each of their hosts, the open listeners exactly the indexed ports; and every entry of the session table is a session of that client that was not dropped |
| `Registry.RegisterKeepsInv` | internal/server/proxy.go:35-176 | a registration, on every return path, keeps that invariant |
| `Registry.DropKeepsInv` | internal/server/server.go:175-186 | dropping any session at any time, current or replaced, keeps it |
| `Registry.CloseKeepsInv` | internal/server/proxy.go:190-199 | closing any name of any session keeps it |
| `Registry.LoginKeepsInv` | internal/server/session.go:139-145 | swapping the client's session keeps it, the replaced session staying with all its proxies |
| `Registry.OwnedDetermines` | internal/server/server.go:189-200 | the session tables determine the three indexes and the listeners: two states that satisfy the invariant and agree on the former agree on the latter, so unconditional deletion from redundant maps is safe |
| `Registry.RegisterFresh` | internal/server/proxy.go:76-107 | under a free key a request succeeds exactly when the proxy it asks for is well formed, its port and all its hosts are free and (tcp) the port binds; it then enters exactly that proxy and answers its port, and otherwise changes nothing |
| `Registry.RegisterTaken` | internal/server/proxy.go:62-69 | under a taken key a request succeeds exactly when it repeats the live configuration, answers the live port, and changes nothing in either case |
| `RegistryLaws.RegisterEchoes` | internal/server/proxy.go:35-176 | every return path answers with the id and the name of its request; a refusal carries an error and no port |
| `RegistryLaws.TcpRefusalsExact` | internal/server/proxy.go:54-87 | under a free name and with a sound address: outside the whitelist, pool full, port in use and bind failed are each answered exactly when the explicit port is not whitelisted, an automatic request finds every whitelisted port taken, the very port asked for is taken, and nothing but the bind stood in the way |
| `RegistryLaws.HostConflictExact` | internal/server/proxy.go:149-154 | an http request that passes the earlier checks is refused for a host exactly when some host is taken, and the host named is the first taken one: the custom domains in their order, each normalized, and then the subdomain in front of the domain |
| `RegistryLaws.OtherRefusalsExact` | internal/server/proxy.go:35-133 | unsupported type, disabled vhost, missing domain and subdomain, subdomain without a server domain, unsound local address and a name taken with another configuration are each answered exactly when that is the first thing wrong |
| `RegistryLaws.HttpHostsExactly` | internal/server/proxy.go:128-137 | after an OK http registration the hosts that lead to the proxy under its key are exactly the normalized custom domains and, if there is a subdomain, the normalized subdomain, a dot and the server's normalized domain |
| `RegistryLaws.AnswerMeans` | internal/server/proxy.go:62-107 | after OK the live proxy under the key provides what was asked for (kind, local address, and its port or its subdomain and domains), the answered port is its own and leads to it; a refusal changes nothing and names its reason |
| `RegistryLaws.RegisterThenClose` | internal/server/proxy.go:189-199 | a fresh successful registration followed by a close restores every table |
| `RegistryLaws.DropIsAnyOrderOfCloses` | internal/server/server.go:183-185 | dropping a session leaves exactly the state that closing its proxies one by one leaves, in any order and with repetitions, apart from the session's own entry and its mark as dropped |
| `RegistryLaws.LateDropSparesOthers` | internal/server/server.go:180-185 | the late drop of a replaced session leaves the session table and every proxy, port and host of every other session untouched |
| `RegistryLaws.EveryProxyHasALiveSession` | internal/server/session.go:139-150 | over every run in which no dropped session registers, each live proxy belongs to its client's current session or to a replaced one whose drop is still pending |
| `RegistryLaws.UnguardedRegistrationLeaks` | internal/server/server.go:175-177 | a registration leaves a proxy of a dropped session exactly when its session was dropped, its key was free, and its proxy fits and (tcp) binds |
| `RegistryLaws.LeakHappens` | internal/server/session.go:139-150 | a run from the start that leads there: two logins, the drop of the first session, and a registration which that session was still handling; its proxy is then live and holds its port although its session is dropped |
| `RegistryLaws.OrphanPersists` | internal/server/session.go:65-71 | such a proxy stays live, and its port bound, over every later run in which its own session does not close it |
| `RegistryLaws.OkMeansHeldExactly` | internal/server/proxy.go:62-69 | after an OK answer the asking session holds the name exactly when the key was free or its live proxy is that session's own |
| `RegistryLaws.OverlappingLoginsLoseProxy` | internal/server/session.go:139-150 | with three logins of one client and the first session's drop still pending, the third is told OK for its proxy and loses it to that drop while it is current |
| `RegistryLaws.KeyCollision` | internal/server/proxy.go:30-32 | two (client, name) pairs share a key exactly when they are equal or one client id continues the other across a slash |
| `RegistryLaws.SlashFreeKeys` | internal/server/proxy.go:30-32 | without slashes in client ids the key is injective |
| `RegistryLaws.RepeatIsIdempotent` | internal/server/proxy.go:179-187 | repeating a fresh successful registration, domains in any order, answers OK with the same port and changes nothing, exactly when it did not ask for an automatic tcp port |
| `RegistryLaws.AllocatorExact` | internal/server/proxy.go:202-211 | allocation returns the first free whitelisted port, the ranges in their order and the ports of a range from the lowest on, and the sentinel 0 exactly when every whitelisted port is taken |
| `RegistryLaws.BoundPortsWithinWhitelist` | internal/server/proxy.go:54-82 | over every run all bound ports lie in the whitelist and there are at most as many as the union of the possibly overlapping ranges has members |
| `Registry.FirstFreeExact` | internal/server/proxy.go:202-211 | for any scan order and any used ports, the result is the first entry not in use, or 0 with every entry in use |
| `Server.Server.constructor` | internal/server/server.go:38-64 | a new server is valid and stands for the empty registry |
| `Server.Server.PortAllowed` | internal/server/proxy.go:214-221 | the loop over the ranges decides membership in their union |
| `Server.Server.AllocPort` | internal/server/proxy.go:202-211 | the nested loops find the first free port of the scan order, or 0 |
| `Server.Server.RegisterTCPProxy` | internal/server/proxy.go:48-108 | updates the four maps, the session's map and the listeners exactly as the registry function does, with the same answer on every path; no other session object changes |
| `Server.Server.RegisterHTTPProxy` | internal/server/proxy.go:111-176 | the same for http proxies, including the host list and the first conflicting host |
| `Server.Server.RegisterProxy` | internal/server/proxy.go:35-44 | dispatches on the type; an unknown type is refused and changes nothing |
| `Server.Server.SameConfig` | internal/server/proxy.go:179-187 | compares type and address, then the port (tcp) or the subdomain and the domains as multisets (http) |
| `Server.Server.RemoveProxyLocked` | internal/server/server.go:189-210 | removes a live proxy from every map, closes its listener and every visitor still queued, and leaves an empty queue |
| `Server.Server.Drain` | internal/server/server.go:202-209 | empties the queue and closes exactly the visitors that were in it |
| `Server.Server.CloseProxy` | internal/server/proxy.go:190-199 | removes the named proxy of the session and closes the visitors queued there, or changes nothing if the session has none of that name |
| `Server.Server.DropSession` | internal/server/server.go:177-186 | deleting from the session's map while walking it, in any order, ends, removes precisely the session's entries (the session table's only if it is still the current one) and closes exactly the visitors queued at its proxies |
| `Server.Server.Close` | internal/server/session.go:65-71 | closing is idempotent: the drop, with the visitors it closes, happens at the first call only |
| `Server.Server.SwapSession` | internal/server/session.go:139-145 | the critical section of a login: the new session is current and empty, and the one it replaced is handed back with its proxies still registered |
| `Server.Server.Login` | internal/server/session.go:122-157 | a refused login changes nothing at all; an accepted one removes precisely the proxies of the session it replaces and closes the visitors queued at them, leaves every other session as it was, and makes the new, empty session the client's current one, or drops it and leaves the client without one if its answer cannot be written |
| `RegistryLaws.SwapAndDrops` | internal/server/session.go:139-157 | the same of the registry: swap, drop of the replaced session, and drop of the new one when it could not be told |
| `Server.Server.LookupVhost` | internal/server/server.go:213-217 | finds a proxy exactly for indexed hosts, and that proxy is live and registered for the very host |
| `Server.Server.DeliverVisitor` | internal/server/server.go:221-240 | the three outcomes of an uninterrupted delivery: queued at the end and announced; closed because 32 are waiting; or, after a failed announcement, head of the queue and visitor closed |
| `Server.Server.TakeVisitor` | internal/server/session.go:230-245 | a data stream takes the head of the queue of the proxy that its own session holds under the name, and nothing else |
| `Control.ServeMessages` | internal/server/session.go:164-199 | handles the messages in order up to the first answer that cannot be written, with the registry and the answers that `Control.AnswersExactly` characterises |
| `Control.ControlLoop` | internal/server/session.go:160-200 | the same, and then closes the session |
| `Control.AnsweredInOrder` | internal/server/session.go:172-181 | registrations are answered one each, in the order read, under their own id and name; only the last can go unanswered, and then its write failed |
| `Control.AnswersExactly` | internal/server/session.go:170-196 | each message read takes the registry from the one reached before it to its own: a registration to what registering it gives and answers, a close to the closed one, a ping and anything else nowhere; the answers are exactly those of the registrations, each the very response of registering it there, and of the pings, each with its own time, in the order of the messages |
| `Control.ReadExactly` | internal/server/session.go:164-197 | only an answer that cannot be written ends the loop: malformed and unknown messages never do |
| `Control.ServesReload` | internal/server/session.go:171-187 | with every bind and write succeeding the loop does to the registry exactly what the reload theorems assume |
| `Reload.ReloadConverges` | internal/client/client.go:423-457 | when the session holds the names of the old table, the server accepts every new or changed entry, these claim nothing held or claimed by another, and there is room for those that leave their port to the server, then in every order of both map walks, and among any steps of other sessions that claim nothing of these and leave that room, the session ends with exactly the new table: new and changed entries as asked (automatic ones with any port), unchanged ones the very proxies they were |
| `Reload.LoneReloadConverges` | internal/client/client.go:440-456 | with nobody else acting, it also leaves every other session and its proxies as they were |
| `Reload.AutomaticPort` | internal/server/proxy.go:202-211 | at any point of such a reload, an automatic entry about to be registered finds a free whitelisted port, and the one it gets is named by no other new or changed entry |
| `ReloadExact.ReloadConvergesExactly` | internal/client/client.go:440-456 | that condition is exact: it holds if and only if every such run, in every order, ends with exactly the new table |
| `ReloadExact.EnoughRoom` | internal/server/proxy.go:71-82 | what the condition says of ports: before the reload, there is room among the ports tried before a limit exactly when the new and changed names that hold none of them and are automatic or name a free one of them are at most as many as the free ones |
| `ReloadExact.NewcomersNeedRoom` | internal/server/proxy.go:71-82 | if the order in which these names come first ends with the new table, they all found a port there, so there was room |
| `ReloadExact.AutomaticTakesNamedPort` | internal/server/proxy.go:71-82 | a new automatic entry that is registered first takes the port another new or changed entry names, if that is the allocator's first choice, and the reload does not end with the new table |
| `ReloadExact.UnchangedNeverTouched` | internal/client/client.go:441-444 | whatever part of a reload's messages was sent and served, among any steps of others, and whatever the session held before, the entry of an unchanged name is the one it was, and live if there is one |
| `ReloadExact.MovedPortNeverConverges` | internal/client/client.go:440-456 | giving a removed proxy's port to a new name converges in no order and whatever others do: the new name ends up unheld |
| `Reload.RunUnderway` | internal/client/client.go:440-456 | after any part of the messages, with others acting in between, each name's entry is what the last message about it left: untouched, free, or the new configuration |
| `Reload.PlanSound` | internal/client/client.go:440-456 | a reload's messages register only changed names, once each and after a close if the name was held, close the removed ones, and say nothing about the others |
| `Reload.ChangedExactly` | internal/client/client.go:459-463 | a configured name is new or changed exactly when there was none or one of its fields differs, the order of its domains aside |
| `Reload.FulfilsExactly` | internal/server/proxy.go:179-187 | what it means that a live proxy is what an entry asks for, field by field |
| `Reload.NothingChangedSendsNothing` | internal/client/client.go:440-456 | a reload in which nothing changed sends nothing, in any order |
| `ReloadExact.OthersMayAct` | internal/server/session.go:139-150 | the interleavings of the reload theorems admit any login and any step of every other session between two messages |
| `Reconnect.ReconnectIsStable` | internal/server/session.go:139-150 | drop a client's replaced session and let the new one register the same proxies in any order, any number of times, interleaved with other clients that claim nothing freed: once all are registered, the client's ports and hosts lead to the same names as before |
| `Reconnect.EveryResendIsGranted` | internal/server/proxy.go:62-107 | during such a reconnection no registration of the new session is ever refused, and each is answered with its old port |
| `Reconnect.DropStartsRestoring` | internal/server/server.go:177-186 | dropping the replaced session frees every key, port and host it held and nothing else stands in their way |
| `AutoPorts.ReconnectEndToEnd` | internal/client/client.go:183-188 | if the server held exactly the client's table, automatic ports included, then after the drop and the client's registrations ports and hosts lead to the same names in every order if and only if at most one entry is automatic and, if there is one, its old port is the first free one of the scan order once the old session is gone |
| `AutoPorts.ReconnectOverRuns` | internal/client/client.go:183-188 | the same from a login on, over whole runs: after any run in which no dropped session registers, for a client whose only session holds exactly its table |
| `AutoPorts.ReconnectAmongOthers` | internal/server/proxy.go:71-78 | under that condition also with other clients acting in between: as long as these claim nothing that was freed and, while the automatic entry is still to come, leave its old port the allocator's first choice, the table registered in any order and any number of times brings back the same addresses and the same table |
| `AutoPorts.AutomaticOkRestores` | internal/server/proxy.go:71-78 | under that condition the new session also holds exactly the table again |
| `AutoPorts.AutomaticPortsSwap` | internal/server/proxy.go:202-211 | a run in which two automatic proxies exchange their ports |
| `ClientLaws.ExplicitReconnect` | internal/client/client.go:183-188 | with every port named in the table, every order restores the addresses and the table |
| `ClientLaws.FirstRegistration` | internal/client/client.go:183-188 | on an unused server any client that logs in and registers any one proxy the server accepts (with an automatic port only if there is a whitelist) is granted it and then holds exactly its table in its only session |
| `ClientLaws.LossesSpareUnchanged` | internal/client/client.go:291-322 | whichever messages of a reload were refused, however far the server got, whatever the session held before and whatever others did, an unchanged name keeps its entry |
| `ClientLaws.RemovedExactly` | internal/client/client.go:452-456 | a removed name is free after a reload exactly when its close was handed over or it was free before; otherwise the very same proxy stays |
| `EndToEnd.ReloadThrough` | internal/client/client.go:423-457 | the client's loops and the server's reader together: the client offers its writer as many messages as new, changed and removed names call for; names that did not change keep their proxies whatever the writer refuses; and if it takes all of them, the server ends with exactly the new table |
| `EndToEnd.DeliveredConverges` | internal/server/session.go:171-187 | a plan that the writer takes in full and the reader handles, in any orders of the maps, ends with exactly the new table |
| `EndToEnd.PlanHasSize` | internal/client/client.go:440-456 | in every order a reload sends one message for each new name, two for each changed one and one for each removed one |
| `EndToEnd.ReconnectThrough` | internal/client/client.go:172-188 | login, drop of the old session, the client's registrations and the server's reader together: if the client's only session held exactly its table, automatic ports were the allocator's first choice and the writer takes all registrations, its addresses lead to the same names as before and the new session holds exactly the table |
| `Client.Client.BuildProxyMap` | internal/client/client.go:64-70 | the table holds exactly the listed names, each with its last entry |
| `Client.TableOfExact` | internal/client/client.go:64-70 | the same of the specification function used by the reload theorems |
| `Client.Client.NextReqID` | internal/client/client.go:333-338 | a new id is larger than every earlier one |
| `Client.Client.RegisterProxy` | internal/client/client.go:264-306 | when connected, offers exactly one request to the writer, under a fresh id, and hands it over exactly when the writer takes it; leaves the pending table as it was on every path; and reports the writer's refusal, the missing answer, the server's refusal or success exactly as the writer and the answers have it |
| `Client.Client.CloseProxyRPC` | internal/client/client.go:309-322 | when connected, offers exactly one close to the writer, which is handed over exactly when the writer takes it; when disconnected it offers nothing |
| `Client.Client.DeliverPending` | internal/client/client.go:324-331 | puts a response into the channel of its own request, and drops it if nobody waits |
| `Client.Client.Reload` | internal/client/client.go:423-457 | a failed load changes nothing; otherwise the table is replaced, and when connected every message of the plan of some order of both maps is offered to the writer, in order, and exactly those it takes are handed over |
| `Client.Client.UpdateAll` | internal/client/client.go:440-451 | the first loop visits every new name once and offers exactly the closes and registrations of the changed ones, in that order; the writer's verdicts alone decide which are handed over |
| `Client.Client.CloseRemoved` | internal/client/client.go:452-456 | the second loop visits every old name once and offers exactly the closes of those no longer configured |
| `Client.Client.RegisterAll` | internal/client/client.go:183-188 | after a login every configured proxy is offered for registration once, in some order, and exactly those the writer takes are handed over |
| `Rpc.OwnResponseOnly` | internal/client/client.go:264-306 | over any number of connections, losses, reorderings and timeouts, a caller only ever receives the server's answer to its own request |
| `Rpc.DeliveryNeverBlocks` | internal/client/client.go:324-331 | whenever the control loop holds a response for a waiter, that waiter's one-place channel is empty |
| `Rpc.IdsNeverReused` | internal/client/client.go:333-338 | ids strictly increase and are never drawn twice, and no request is answered twice |
| `Rpc.RequestIsAnswered` | internal/client/client.go:264-306 | after any run, a request that is sent, handled, read back and delivered ends with its caller holding precisely the server's response to it |
| `Rpc.LateResponseIsDropped` | internal/client/client.go:324-331 | a response that comes after its caller gave up is dropped and disturbs nobody |
| `Handoff.ActsKeepInv` | internal/server/server.go:219-254 | every interleaving of registry steps, accepts, lookups, queue operations, notifications, drains and data streams from the empty server on keeps the hand-off invariant |
| `Handoff.RoutingIsolation` | internal/server/session.go:230-242 | a visitor joined to a stream of a session whose metadata names a proxy came in by a port or a host of a proxy of that name in that very session, even if it was removed in between |
| `Handoff.VisitorConservation` | internal/server/server.go:201-239 | per proxy, queued visitors = joined + drained + taken back + still waiting; the queue is first in, first out and at most 32 long; nobody leaves twice; whoever left without a stream is closed; every announcement is of a queued visitor, at most once |
| `Handoff.JoinedOnce` | internal/server/session.go:239-245 | no visitor is joined to two streams, and every refused or given-up visitor is closed |
| `HandoffLaws.VisitorGetsThrough` | internal/server/server.go:219-254 | from every world, a new visitor of a live proxy that nobody waits for, by its port or by any of its hosts, is queued, announced, and joined to the stream that the client opens for it at that very proxy, and is not closed |
| `HandoffLaws.StreamEnds` | internal/server/session.go:221-237 | a stream is closed without a visitor exactly when its session holds no proxy of the name, or when it stops waiting |
| `HandoffLaws.RemovedDrains` | internal/server/server.go:189-210 | every proxy that a registry step removes begins to drain, with its queue as it was |
| `HandoffLaws.RemovalCloses` | internal/server/server.go:201-209 | a removal takes every visitor out of its queue and closes it, and is over when it finds none |
| `HandoffLaws.FailureTakesAnotherExactly` | internal/server/server.go:228-237 | a failed announcement closes its own visitor, whatever became of it meanwhile, and takes back another one exactly when another one heads the queue |
| `HandoffLaws.WrongTakeBackHappens` | internal/server/server.go:228-237 | a run in which an announced visitor is closed for another's failure, while that other stays queued although closed |
| `HandoffLaws.JoinedVisitorIsClosed` | internal/server/server.go:228-237 | a run in which the visitor whose announcement failed is closed while joined to a stream, and an unrelated, announced one is closed besides |
| `HandoffLaws.LateDeliveryExactly` | internal/server/server.go:222-227 | a delivery ends in the queue of a removed and drained proxy exactly when the proxy is so and its queue has room |
| `HandoffLaws.LateDeliveryHappens` | internal/server/server.go:201-227 | a run that leads there: accepted, proxy closed, queue found empty, and only then offered |
| `HandoffLaws.AbandonedForGood` | internal/server/server.go:189-210 | over every later run a removed and drained proxy never becomes live nor drains again, and whoever leaves its queue leaves by a take-back or by a stream that had found the proxy before |
| `HandoffLaws.LateVisitorWaits` | internal/server/server.go:189-210 | so a visitor queued there waits until such an exit |
| `Waiting.LiveExits` | internal/server/server.go:221-240 | over every run in which a proxy stays live, its queue is left only by streams that receive from it and by take-backs after failed announcements of its own visitors |
| `Waiting.LiveVisitorWaits` | internal/server/session.go:230-237 | so a visitor queued there is still queued, or left by such a reception or take-back, which is an action of the run |
| `Waiting.NoTimeout` | internal/server/session.go:230-237 | and as long as none of the proxy's own visitors has a failed announcement take one back, it was not closed either, whatever happens at other proxies: it is open, and still queued or received by a stream |
| `Waiting.RejectedExactly` | internal/server/server.go:222-227 | an arriving visitor is turned away and closed exactly when 32 are queued, and is otherwise queued last |
| `Waiting.FullQueueRejects` | internal/server/server.go:222-227 | over every run in which nobody leaves a full queue, it stays as it is, and every visitor of the proxy that is offered is turned away and closed |
| `Proto.WriteFrame` | internal/proto/proto.go:103-116 | header and payload in two writes; success exactly when both fit, and a failure leaves a proper prefix of the frame |
| `Proto.ReadFrame` | internal/proto/proto.go:119-134 | yields exactly the frame at the front and leaves exactly the rest, or fails as the decoder says: short header, oversized length or short payload |
| `Proto.FrameOctets` | internal/proto/proto.go:102-116 | the octets of a frame: one for its type, four for its length with the most significant first, and its payload |
| `Proto.ReadErrorsExactly` | internal/proto/proto.go:119-134 | end of stream, unexpected end and a length over 1048576 are each reported exactly when no octet, some octets, or a length over the limit were there |
| `Proto.FrameRoundTrip` | internal/proto/proto.go:102-134 | a written frame is read back, with any rest untouched, exactly when its payload is at most 1048576 bytes |
| `Proto.ReadReencodes` | internal/proto/proto.go:119-134 | a successful read consumed exactly the encoding of the frame it returns |
| `Proto.ReadableExactly` | internal/proto/proto.go:119-134 | the readable streams are exactly those starting with an encoded frame within the limit |
| `Proto.PrefixIsError` | internal/proto/proto.go:119-134 | every proper prefix of a frame is an error: end of stream at its two read boundaries, unexpected end elsewhere |
| `Proto.StreamRoundTrip` | internal/proto/proto.go:102-134 | reading the concatenation of any frames within the limit and any rest gives those frames and then whatever the rest gives |
| `Proto.CutStream` | internal/proto/proto.go:119-134 | a stream cut inside a frame gives the whole frames before it |
| `ControlStream.SentIsWholeFrames` | internal/server/session.go:57-62 | however many senders interleave, header and payload being separate writes, the stream is always whole frames in the order of lock acquisition and at most one header more |
| `ControlStream.ReaderSeesLog` | internal/server/session.go:57-62 | a reader of any part of the stream has a prefix of that list of frames, and of the whole stream, when nobody is sending, exactly the list |
| `ControlStream.SenderGetsThrough` | internal/server/session.go:57-62 | after any run that leaves the lock free, a goroutine that sends puts precisely its frame on the stream and leaves the lock free again |
| `Mux.Conn.Read` | internal/server/vhost.go:19-26 | reads take octets off the front of what is pending, the captured head first and then what the buffered reader fetched ahead, in order and without loss, also after a close; an open connection with nothing fetched gives what has arrived, up to the size asked for; reads fail exactly when nothing is left of either and the fetch that brought the last of it had failed, or the connection is closed, dead or fails now |
| `Mux.ReadMany` | internal/server/vhost.go:19-26 | whatever the buffer sizes, what was read followed by what is pending is what was pending before; the reads bring at least the head or all they ask for, at least one octet each of what was fetched, and none fails before that is handed out |
| `Mux.Direction.Fetch` | internal/mux/mux.go:30-43 | one read of a copy loop, of up to 32768 octets: what it brought is added to what was taken, and the direction ends exactly when the read failed and brought nothing |
| `Mux.Direction.Pass` | internal/mux/mux.go:32-40 | one write of a copy loop: as much is accepted and counted as the destination has room for, and the direction ends exactly when the write was refused or the read before it had failed |
| `Mux.Join` | internal/mux/mux.go:24-57 | for every interleaving of the two directions, closes between a read and its write and between the two closes included: each side got a prefix of what was read from the other; less than all of it exactly when the destination refused a write, all of it exactly when no write was refused and the source failed a read; the counters grew by exactly what was accepted; both connections end closed; and a join of open connections ends because one of them failed while open |
| `Joins.ActiveCountsAgree` | internal/server/session.go:249-254 | whenever nobody is between the paired updates, a session's active count is the number of its joins in progress and the sum of its proxies' active counts |
| `Joins.BytesAddUp` | internal/server/session.go:255-259 | at every moment each byte counter is the sum of what the connections of all joins accepted in its direction, but for writes whose callback is still to run |
| `Joins.ReturnedIsClosed` | internal/mux/mux.go:46-56 | with closing a step of its own: whenever a direction is about to read again it has passed on all it read, and a join that has returned has both connections closed and nothing uncounted |
| `Joins.NothingAfterClose` | internal/mux/mux.go:27-45 | a closed connection accepts nothing over any later run, even while a goroutine still holds a chunk for it |
| `Joins.JoinRuns` | internal/server/session.go:249-259 | among any others, a join counts as active from its start, passes on and counts what is read on either side, closes both connections, and counts no more at its end |
| `Hosts.NormalizeIdempotent` | internal/server/vhost.go:94-97 | normalizing twice differs from once exactly when the trimmed name ends in a dot after another dot or a blank |
| `Hosts.DoubleDotShrinks` | internal/server/vhost.go:94-97 | a concrete name on which it differs |
| `Hosts.HostLineKey` | internal/server/vhost.go:61-72 | a Host line in any ASCII case, with blanks around the value and an optional port, leads to the value in lower case |
| `Hosts.HostLineExactly` | internal/server/vhost.go:61 | the lines that give a host are exactly those that begin with these four letters, each in either case, and a colon |
| `Text.BlankExactly` | internal/server/vhost.go:41 | the six blank characters |
| `Hosts.FoundBySpelling` | internal/server/vhost.go:69-73 | a domain is looked up under the key it was registered with exactly when its spelling has no colon and no trailing dot |
| `Vhost.RoutedExactly` | internal/server/vhost.go:34-72 | a connection is routed exactly when what arrives in time opens with a request line in which a blank stands between two non-blanks, field lines within 16 KiB, an empty line and a non-empty last Host value; the captured head is that text, octet for octet |
| `Vhost.FieldCountExactly` | internal/server/vhost.go:41-45 | counting the fields of a line reaches two exactly when a blank stands between two non-blanks |
| `Vhost.BadExactly` | internal/server/vhost.go:41-68 | a connection is answered 400 exactly when its first line arrives without two fields, or a whole head within the limit arrives that names no host |
| `Vhost.PlainRequestIsRouted` | internal/server/vhost.go:34-73 | the plain request for any name without colon, line end and outer blanks, its lines ended with or without a carriage return, is routed to that name, with the whole of it captured |
| `Vhost.HeadBounded` | internal/server/vhost.go:54-60 | a routed connection's captured head is at most 16386 octets and is the beginning of its input |
| `Vhost.RegisteredHostIsFound` | internal/server/vhost.go:61-73 | a registered, non-empty host without colon and outer blanks is found by every well-formed request whose last Host line gives it, in any ASCII case, with blanks and an optional port; the proxy found is live and registered for that host |
| `Vhost.AskedHostIsFound` | internal/server/vhost.go:73 | after an OK http registration every well-formed request for one of the hosts asked for leads to the proxy registered under that key |
| `Vhost.SubdomainIsFound` | internal/server/proxy.go:133-137 | so a request for the subdomain, a dot and the server's domain, in any ASCII case, reaches the proxy of that subdomain |
| `Vhost.LineReader.ReadLine` | internal/server/vhost.go:48-53 | the next line up to and with its end, or a failure if none arrives in time, consuming exactly what it returns |
| `Vhost.ReadHead` | internal/server/vhost.go:34-68 | the loop's verdict is the scan's, and captured head plus what the reader still holds is the visitor's input |
| `Vhost.HandleVhostConn` | internal/server/vhost.go:30-84 | a connection whose head does not come is dropped, a bad head is answered 400, an unknown host 404; a found proxy takes the visitor exactly when fewer than 32 are queued there and the announcement is written; every connection not handed over is closed; a connection handed over is queued last and still offers the visitor's octets from the first on, those the buffered reader had fetched by then included |
| `Vhost.Forward` | internal/server/vhost.go:79-83 | what reaches the proxy's stream is a prefix of what was read from the visitor, from its first octet on across the boundary between head and rest; all of it exactly when the stream refused no write and the visitor's side failed a read |
| `Config.SameStrings` | internal/config/config.go:37-52 | true exactly when the two lists are equal as multisets |
| `Config.ParsePortRanges` | internal/config/config.go:149-176 | the loop stops at the first bad part; a successful parse is not empty and holds only ranges with 1 <= min <= max <= 65535 |
| `Config.PartExactly` | internal/config/config.go:156-171 | a part with a dash is accepted exactly when both sides of the first one are numbers that bound a range of ports, the lower first, and a part without when it is a port |
| `Config.ParsedExactly` | internal/config/config.go:149-176 | a whitelist is accepted exactly when some part is not blank and every such part is accepted; otherwise the first refused part is reported, or that there is none |
| `Config.DigitsExactly` | internal/config/config.go:158-167 | a number is one or more digits, the first the most significant |
| `Config.WhitelistRoundTrip` | internal/config/config.go:149-176 | printing any list of ranges as single ports or spans, with blanks around the parts and blank parts anywhere, parses back to exactly those ranges, or is refused as empty if there are none |

## Left out

- TLS, certificates, fingerprints, the login's HMAC and clock window: login success is the parameter `verified`.
- smux, sockets and operating-system binds: an ordered stream of messages, sequences of octets and the parameter `bindOk`.
- JSON and YAML: messages are abstract values; a payload that does not decode is `Control.Malformed`.
- Real time: heartbeats, deadlines and timeouts are free choices, and nothing is claimed about progress.
- The reconnection backoff and its jitter.
- The closing of the client's write channel: the client is modelled within one connected period.
- The stream after a failed or partial write: `ControlStream` covers runs without write errors, `Proto.WriteFrame` what one failed write leaves.
- The dashboard, logging, the command-line programs, and the text of HTTP error replies and error messages.
- Unicode: lower-casing, blanks and field names are ASCII.
- Machine integers: request ids and counters are unbounded; port numbers stay far below any width.
- Aliasing between goroutines: a method of `Server` runs as one critical section without interruption; interleavings are proved on values in `RegistryLaws`, `Handoff` and `Rpc`.
- `Joins` keeps the counters on values: updates from several goroutines to one counter are steps, not heap writes.
- Server.Server.DeliverVisitor: states a delivery nothing interrupts; deliveries with other steps in between are `Handoff.VisitorConservation`.
- Server.Server.TakeVisitor: a stream that waits for a visitor is not modelled as waiting; it takes one that is there or none.
- Reload.ReloadConverges: assumes that every message arrives in order and every bind succeeds; what holds with refused messages is `ClientLaws.LossesSpareUnchanged` and `ClientLaws.RemovedExactly`.
- Control.ControlLoop: a method on the heap that no other session's step interrupts; each of its turns is `Control.Handle`, which holds from any state, and the interleavings are proved on values in `Reload.ReloadConverges`.
- EndToEnd.ReloadThrough: likewise for a reload that no other session's step interrupts.
- Reconnect.ReconnectIsStable: assumes that the freed ports bind again and that no other client claims what was freed, as the documentation's promise does.
- AutoPorts.ReconnectEndToEnd: with nobody else acting between the drop and the registrations; with others acting the sufficient half is `AutoPorts.ReconnectAmongOthers`.
- Client.Client.RegisterProxy: the answers that come in time are an input there; that they are the server's answers to these very requests is `Rpc.OwnResponseOnly`.
- EndToEnd.ReconnectThrough: likewise uninterrupted, with one login of the client; other clients in between are `AutoPorts.ReconnectAmongOthers`.
