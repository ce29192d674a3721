# E_DBus: a verified model

E_DBus connects the Enlightenment main loop to D-Bus. This project models its state machines and
its arithmetic in Dafny and proves what they keep. libdbus, ecore, eina and evas appear only as a
bus with two first-in first-out queues, a queue of events, one-shot timers, a pool of interned
strings and pixel buffers.

`dafny verify dfyconfig.toml` checks everything.

| file | models |
|---|---|
| `OwnerTracking.dfy`, `OwnerProtocol.dfy` | how a signal handler learns the owner of a well-known name from the GetNameOwner reply and from NameOwnerChanged, against a bus |
| `DispatchModel.dfy`, `DispatchLaws.dfy`, `SignalDispatch.dfy`, `Lists.dfy` | handlers of one connection: dispatch, deletion while dispatches are nested, clean-up, as a function, what that function means for handlers and calls, and objects that refine it |
| `MatchRule.dfy` | the text of a match rule, what the bus reads in it, and the handler's own filter |
| `SharedConnection.dfy` | acquisitions, put-off closes and teardown of the shared connection |
| `ArrayMatch.dfy`, `Counting.dfy`, `ElementCache.dfy`, `RegistryRun.dfy`, `ListedPaths.dfy` | the array comparison, the registry of remote objects, its events and reference counts, whole runs of it, and what several arrays that list the same objects do to it |
| `Properties.dfy` | the properties of one object and the interned strings they share |
| `ElementStrings.dfy`, `LedgerRun.dfy` | the interned strings of all objects together, and whole runs of registry and string pool |
| `PendingCalls.dfy` | calls that wait for a reply and what destruction does to them |
| `ListenerIdler.dfy` | change listeners and the idler that calls them |
| `ConnmanSystem.dfy` | the followed service, MANAGER_IN and MANAGER_OUT |
| `NotifyWire.dfy`, `NotifyImage.dfy` | the Notify message and the image hint |
| `NotifyDaemon.dfy` | the notification daemon |

Code that changes objects is modelled by classes whose methods are proved against pure functions or
against the old state; the protocols between client and bus are pure state machines. Callbacks of
the application are scripts of any length and nesting. A `WholeRun` method drives arbitrary
sequences of operations from the initial state, and its result is tied to a pure account of the
same sequence.

## What turned out not to hold

Where the code does not do what one would expect, the exact condition is proved:

* A handler can record an outdated owner for good, if it is added while an undelivered change of its
  name announces an owner that has left, or whose leaving will not be announced to this client
  (`OwnerProtocol.AgreesForeverIffSafe`, `OwnerProtocol.OutdatedOwnerReachable`). An application that
  deletes a handler only while another of the same name remains is safe (`OwnerProtocol.KeepingAgrees`).
* A handler for a unique name takes signals of any sender once that name is gone
  (`OwnerProtocol.GoneSenderMatchesAll`).
* A match rule is read back by the bus exactly if no value holds an apostrophe
  (`MatchRule.ParseRenderIff`).
* An array with a duplicate drops an object that is still listed (`ElementCache.ReplacementIffNoSurplus`).
* So does an array that no longer lists an object which another property still lists
  (`ListedPaths.AlwaysInStepIff`, `ListedPaths.ServiceUnregistered`).
* A callback that drops the last reference of its element is run twice (`PendingCalls.Element.Reply`).
* A change reported from inside a listener callback is not seen by the listeners already called
  (`ListenerIdler.Element.RunIdler`); one reported from anywhere else is (`ListenerIdler.WholeRun`).
* The connman client compares with a null name when the owner exits before the first answer
  (`ConnmanSystem.SessionCrashesIff`), and ignores a handover (`ConnmanSystem.InStepIffNoHandover`).
* Low urgency, a coordinate of zero and the desktop entry do not survive the wire, and three pairs
  of hint flags share a bit (`NotifyWire.UrgencySurvivesIff`, `NotifyWire.PositionSurvivesIff`,
  `NotifyWire.DesktopSurvivesIff`, `NotifyWire.ResidentClaimsPosition`,
  `NotifyWire.SharedFlagsOnArrival`). A transient or resident hint that is false reads as true
  (`NotifyWire.UnsentHints`), and the order of hints can matter (`NotifyWire.HintsCommuteIff`).
* A notification does not replace the one it names (`NotifyDaemon.ReplacedIdIff`,
  `NotifyDaemon.ReplacedStaysBeside`, `NotifyDaemon.ReplacedNoteStaysOpen`).

The comment at `src/lib/connman0_7x/e_connman_element.c:2434-2435` says that clearing the elements
queues no DEL; the code queues one for each element, and the model follows the code. The daemon
reads replaces_id and ignores it, although the Desktop Notifications Specification, section
"Protocol", asks for the old notification to be replaced; the model follows the code.

## Model

| member | source | states |
|---|---|---|
| `OwnerProtocol.AgreesForeverIffSafe` | src/lib/dbus/e_dbus_signal.c:60-169 | A handler newly added for a well-known name keeps agreeing with the bus in every later run if and only if it was safe to add it: no undelivered change announces an owner, or the name is owned and its changes are already routed here. |
| `OwnerProtocol.ReachableWellFormed` | src/lib/dbus/e_dbus_signal.c:99-200 | Every run of bus and client from the start satisfies what the result above asks of a state: only the latest handler's registration is queued, ahead of everything else, and no handler that is there is named in a withdrawal. |
| `OwnerProtocol.InvStep` | src/lib/dbus/e_dbus_signal.c:60-232 | Each step of the protocol (owner change, other signal, request served, message delivered, handler added, marked, removed) keeps the invariant of one handler: replaying what is undelivered leads to the current owner once the query was served. |
| `OwnerProtocol.UnaskedMeansQueued` | src/lib/dbus/e_dbus_signal.c:141-169 | The phase in which a handler waits for its query is exactly the time its GetNameOwner request is still queued. |
| `OwnerProtocol.ReplayOfNew` | src/lib/dbus/e_dbus_signal.c:60-81 | Replaying the undelivered messages from a new handler gives the last announced owner, so an outdated change is taken for news. |
| `OwnerProtocol.UnsafeEscape` | src/lib/dbus/e_dbus_signal.c:60-71 | From every unsafe registration a run of at most three events leads to disagreement: the owner leaves unannounced and an error reply does not clear the outdated owner. |
| `OwnerProtocol.FiresExactly` | src/lib/dbus/e_dbus_signal.c:234-245 | Once answered, an agreeing handler's callback fires for exactly the signals of its filter whose sender owned the name when the bus sent them, or that were sent while nobody owned it. |
| `OwnerProtocol.QuietAgreement` | src/lib/dbus/e_dbus_signal.c:60-81 | With both queues empty an agreeing handler is not pending and holds the current owner, or none if there is none. |
| `OwnerProtocol.OutdatedOwnerReachable` | src/lib/dbus/e_dbus_signal.c:60-200 | A concrete run from the start, in which one handler is deleted and another added before the owner change is delivered, ends with empty queues, a name nobody owns, and a handler that still records the old owner. |
| `OwnerProtocol.KeepingAgrees` | src/lib/dbus/e_dbus_signal.c:60-200 | In every run from the start in which a handler is removed only while another of the same name remains, and one whose own rule admits every owner change only while another such one does, every handler agrees with the bus. |
| `OwnerProtocol.RulesStep` | src/lib/dbus/e_dbus_signal.c:99-200 | Each step of such a run keeps, for every rule that routes owner changes of a name, a handler that will not let go of it. |
| `OwnerProtocol.NoRemovalAgrees` | src/lib/dbus/e_dbus_signal.c:60-200 | In every run from the start in which no handler is deleted, however many are added and in whatever order bus and client run, every handler agrees with the bus. |
| `OwnerProtocol.NewsStep` | src/lib/dbus/e_dbus_signal.c:99-200 | While no rule that is needed is taken back, an undelivered announcement of an owner is of a name that is owned and whose changes are routed to this client. |
| `OwnerProtocol.RulesReturned` | src/lib/dbus/e_dbus_signal.c:176-200 | In every run each rule at the bus is that of a registered handler, or its withdrawal is queued. Once the requests are served, the bus has exactly one owner rule for each handler of a well-known name, and no rule of a handler that is gone. |
| `OwnerProtocol.OwnedStep` | src/lib/dbus/e_dbus_signal.c:99-200 | Each step of the protocol keeps this. |
| `OwnerProtocol.WideWhileThere` | src/lib/dbus/e_dbus_signal.c:113-125 | A handler's own rule for all owner changes is at the bus from its addition to its removal, and only that of such a handler. |
| `OwnerProtocol.EmittedIsCalled` | src/lib/dbus/e_dbus_signal.c:202-246 | A signal emitted now reaches a handler that agrees behind everything queued before it, and calls it exactly if its filter lets it through and its sender owns the name at this moment, or nobody does. |
| `OwnerProtocol.UntrackedFires` | src/lib/dbus/e_dbus_signal.c:157-166 | A handler for a unique name, for the bus itself or for any sender waits for no answer: as long as that name does not change hands it is called for exactly the signals of its sender, or of anybody, that its filter lets through. |
| `OwnerProtocol.GoneSenderMatchesAll` | src/lib/dbus/e_dbus_signal.c:221-241 | Once its unique name is announced as gone, such a handler's own filter takes signals of any sender. |
| `SignalDispatch.SignalHandler.constructor` | src/lib/dbus/e_dbus_signal.c:113-166 | A new handler for a well-known name waits for the owner; for any other sender the owner is the sender. |
| `SignalDispatch.SignalHandler.Track` | src/lib/dbus/e_dbus_signal.c:221-231 | An owner change for the handler's sender sets or clears its owner, unless the handler is deleted. |
| `SignalDispatch.Connection.Add` | src/lib/dbus/e_dbus_signal.c:99-174 | The handler is appended with its initial view. |
| `SignalDispatch.Connection.Mark` | src/lib/dbus/e_dbus_signal.c:182-187 | Deleting cancels the pending query and marks the handler; the list does not change. |
| `SignalDispatch.Connection.Unlink` | src/lib/dbus/e_dbus_signal.c:194-200 | Exactly this handler leaves the list; the others keep their order. |
| `SignalDispatch.Connection.Del` | src/lib/dbus/e_dbus_signal.c:176-200 | While a dispatch is on the stack nothing leaves the list and the deletions flag is set; otherwise exactly this handler leaves it. |
| `SignalDispatch.Connection.CleanList` | src/lib/dbus/e_dbus_signal.c:254-261 | The safe iteration does to the objects what the model's clean-up of the same nodes does (DispatchModel.CleanFrees, DispatchModel.CleanDefers). |
| `SignalDispatch.Connection.Clean` | src/lib/dbus/e_dbus_signal.c:248-262 | The clean-up does to the objects what the model's does (DispatchModel.CleanOk). |
| `SignalDispatch.Connection.TrackOwners` | src/lib/dbus/e_dbus_signal.c:221-231 | The first loop does to the objects what the model's does (DispatchModel.TrackMeans). |
| `SignalDispatch.Connection.CallHandlers` | src/lib/dbus/e_dbus_signal.c:234-245 | The second loop, over a list that callbacks may extend and mark, calls who the model says, for every script of every callback (DispatchModel.VisitsGood, DispatchModel.QuietVisits). |
| `SignalDispatch.Connection.Dispatch` | src/lib/dbus/e_dbus_signal.c:202-246 | A dispatch comes to what the model says. If no callback acts, every listed handler that is not deleted holds the owner announced for its sender, all others are as they were, and each listed handler that fires with its new owner was called once, in order; an owner change that cannot be read changes nothing and calls nobody. |
| `SignalDispatch.Connection.Reply` | src/lib/dbus/e_dbus_signal.c:60-81 | A reply reaches the k-th handler and no other: if it waits, the wait ends and the owner that is named is recorded; an error leaves the owner as it was. |
| `SignalDispatch.Connection.Idler` | src/lib/dbus/e_dbus.c:400-413 | One pass dispatches its job with the depth raised and cleans up with the depth restored, as the model's pass does (DispatchModel.PassGood). |
| `SignalDispatch.Connection.RunActs` | src/lib/dbus/e_dbus_signal.c:99-262 | Any sequence of additions, deletions and dispatches, nested to any depth, comes to exactly what the model computes from it. |
| `SignalDispatch.WholeRun` | src/lib/dbus/e_dbus_signal.c:99-262 | Any run of an application comes to what its script says; the list holds the handlers added and not deleted, in order of addition, and what was deleted was freed; with callbacks that do nothing it is the plain list of DispatchLaws.PlainRun. |
| `DispatchModel.DelOk` | src/lib/dbus/e_dbus_signal.c:176-200 | With a dispatch on the stack a deletion raises the flag and leaves list and memory alone; otherwise exactly this handler leaves the list and is freed; the log stays orderly. |
| `DispatchModel.TrackMeans` | src/lib/dbus/e_dbus_signal.c:221-231 | The first loop gives every handler of the list the new owner of its sender and changes nobody else. |
| `DispatchModel.CleanFrees` | src/lib/dbus/e_dbus_signal.c:254-261 | At depth 0 the iteration frees each marked node of the list once and keeps the others in order. |
| `DispatchModel.CleanDefers` | src/lib/dbus/e_dbus_signal.c:254-261 | Deeper nothing leaves the list, and a marked node raises the flag again. |
| `DispatchModel.CleanOk` | src/lib/dbus/e_dbus_signal.c:248-262 | At depth 0 exactly the handlers that are not deleted stay, in their order, and everything deleted is freed; deeper, the list stays and a deletion still to be done keeps its flag. |
| `DispatchModel.VisitsGood` | src/lib/dbus/e_dbus_signal.c:234-245 | Whatever the callbacks do, the list only grows and nothing is freed while the second loop runs, so that every position it reads is a live handler. |
| `DispatchModel.QuietVisits` | src/lib/dbus/e_dbus_signal.c:234-245 | With quiet callbacks the log gains exactly one call for each handler that fires, in order. |
| `DispatchModel.PassGood` | src/lib/dbus/e_dbus.c:400-413 | One pass keeps the invariant; the outermost pass leaves every deleted handler freed. |
| `DispatchModel.AfterGood` | src/lib/dbus/e_dbus_signal.c:99-262 | So does any script, nested to any depth; inside a dispatch the list only grows, and at the main loop nothing deleted is left behind. |
| `DispatchModel.OrderlyMeans` | src/lib/dbus/e_dbus_signal.c:176-262 | For any two entries of the log about one handler: after a deletion no call, after freeing neither a call nor a second free. |
| `DispatchModel.CalledMeans` | src/lib/dbus/e_dbus_signal.c:234-245 | Every call in the log is of a callback, for a signal that the path, interface and member of its handler let through, also when callbacks act. |
| `DispatchModel.WholeRun` | src/lib/dbus/e_dbus_signal.c:99-262 | After any script on a new connection the list is what was added less what was deleted, in order of addition; everything deleted was freed; the log is orderly. |
| `DispatchLaws.DispatchMeans` | src/lib/dbus/e_dbus_signal.c:202-246 | After a dispatch of any signal whose callbacks do nothing, at any depth: owners as announced, everything else as it was, and one call for each handler that fires with its new owner, in the order of the list. |
| `DispatchLaws.ReplyMeans` | src/lib/dbus/e_dbus_signal.c:60-81 | A reply changes the handler it is for and nothing else. |
| `DispatchLaws.ScriptMeans` | src/lib/dbus/e_dbus_signal.c:99-262 | Any script of additions, deletions, signals and replies whose callbacks do nothing does to handlers and calls what it does to a plain list, from which a deleted handler is simply taken out: no flag, mark, depth or clean-up shows. |
| `DispatchLaws.PlainRun` | src/lib/dbus/e_dbus_signal.c:99-262 | So on a new connection. |
| `DispatchLaws.ScriptInside` | src/lib/dbus/e_dbus_signal.c:99-262 | Inside a callback the same holds, except that a deleted handler stays in the list, marked and waiting for nothing; nested dispatches and replies reach all the others. |
| `DispatchLaws.FlatVisits` | src/lib/dbus/e_dbus_signal.c:234-245 | The second loop from any position on, with callbacks that add and delete: those called, once each and in the order of the list, and among the handlers not deleted exactly those that fire. |
| `DispatchLaws.ActingCallbacks` | src/lib/dbus/e_dbus_signal.c:202-246 | A dispatch whose callbacks add and delete handlers: each handler on the list in the end that is not deleted, also one added by a callback, holds the announced owner if it was there before, and was called exactly once if it fires and not at all otherwise; no handler is called twice; the n-th call ran the n-th script. |
| `MatchRule.Match.Append` | src/lib/dbus/e_dbus_signal.c:83-97 | The rule grows by the pair exactly when the value is there and the result stays short enough; it is always the prefix and the accepted pairs, below the maximum length. |
| `MatchRule.BuildRule` | src/lib/dbus/e_dbus_signal.c:113-125 | The built rule holds exactly the accepted fields; below the maximum length its text is the type and then sender, path, interface and member under these keys, as far as the handler names them; the bus reads these pairs in it if and only if none of them has an apostrophe; it lets through every message the handler accepts, and only those if and only if no field was dropped. |
| `MatchRule.RuleAsRead` | src/lib/dbus/e_dbus_signal.c:113-125 | The same for the accepted fields of any handler: read back if and only if no accepted value has an apostrophe, exact if and only if all fields were accepted. |
| `MatchRule.ParseRender` | src/lib/dbus/e_dbus_signal.c:83-97 | Reading a rule as the D-Bus Specification, section "Match Rules", does gives back the written pairs, for values without an apostrophe. |
| `MatchRule.ParseRenderIff` | src/lib/dbus/e_dbus_signal.c:83-97 | For all lists of pairs whose keys hold no equals sign the rule is read back if and only if no value holds an apostrophe. |
| `MatchRule.ParseNeeds` | src/lib/dbus/e_dbus_signal.c:83-97 | A rule holds at least one character that is not an apostrophe for each character that is read in it and for the punctuation of each pair, for all texts that can be read. |
| `MatchRule.ApostrophesAreLost` | src/lib/dbus/e_dbus_signal.c:96 | The bus reads a value with two apostrophes in a row as the value without them. |
| `MatchRule.QuotedApostropheIsRead` | src/lib/dbus/e_dbus_signal.c:96 | An apostrophe written as the specification says, between a quoted part and the next, would be read; the writer does not write it so. |
| `MatchRule.RuleAndFilter` | src/lib/dbus/e_dbus_signal.c:238-242 | The path, interface and member part of a rule never excludes what the local filter accepts, and selects the same messages, for all messages, if and only if no field was dropped. |
| `SharedConnection.Bus.BusGet` | src/lib/dbus/e_dbus.c:429-473 | While there is a connection the same one is returned; otherwise a fresh one, or none if the bus cannot be reached; each success is one acquisition. |
| `SharedConnection.Bus.AddRef` | src/lib/dbus/e_dbus.c:552-556 | A reference is one more acquisition. |
| `SharedConnection.Bus.TearDown` | src/lib/dbus/e_dbus.c:184-208 | Teardown needs a connection that is not torn down, a count of zero and no dispatch on the stack, and empties the slot. |
| `SharedConnection.Bus.CloseRequest` | src/lib/dbus/e_dbus.c:511-549 | A close inside a dispatch is put off; outside, the last one takes the connection down. |
| `SharedConnection.Bus.Deferred` | src/lib/dbus/e_dbus.c:414-420 | Doing the put-off closes takes the connection down exactly when nobody uses it any more, and then only with the last of them. |
| `SharedConnection.Bus.Idler` | src/lib/dbus/e_dbus.c:400-423 | The connection stays through every nested dispatch; the outermost pass takes it down exactly when the acquisitions and close requests made before and inside it balance. |
| `SharedConnection.Bus.RunActs` | src/lib/dbus/e_dbus.c:400-556 | After any acts, nested to any depth, the acquisitions less close requests are those the acts add up to; inside a dispatch the connection stays; one that appears later is a fresh one. |
| `SharedConnection.WholeRun` | src/lib/dbus/e_dbus.c:400-556 | At the end of any run there is a connection if and only if the acts acquire more than they close, and its reference count is the difference. |
| `SharedConnection.UsersAreNet` | src/lib/dbus/e_dbus.c:400-556 | If the bus can be reached and nobody uses a connection it does not have, every acquisition, reference and close counts, however deep it is nested. |
| `ArrayMatch.Match` | src/lib/connman0_7x/e_connman_element.c:477-577 | For all arrays the items registered are the bag difference new less old and the items unregistered old less new, each in the order of its array. |
| `ArrayMatch.Merge` | src/lib/connman0_7x/e_connman_element.c:511-530 | The merge loop passes equal items, lists the others of the old array as deleted, and stops when either array is used up, with both sides balanced. |
| `ArrayMatch.Sort` | src/lib/connman0_7x/e_connman_element.c:532-556 | The second loop takes items back from the deletions or adds them, keeps the balance, and never has an item in both lists. |
| `ArrayMatch.BalancedDifferences` | src/lib/connman0_7x/e_connman_element.c:477-577 | Two lists that balance the arrays and share no item are their two bag differences. |
| `ElementCache.Cache.EventAdd` | src/lib/connman0_7x/e_connman_element.c:78-84 | A queued event holds a reference of its own. |
| `ElementCache.Cache.Register` | src/lib/connman0_7x/e_connman_element.c:2358-2390 | A known path gives the same object and changes nothing; a new one is registered with one reference, and an ADD event holds another. |
| `ElementCache.Cache.Unregister` | src/lib/connman0_7x/e_connman_element.c:2392-2429 | The registry's reference moves to one DEL event; a path that is not registered changes nothing. |
| `ElementCache.Cache.Ref` | src/lib/connman0_7x/e_connman_element.c:1086-1091 | A user's reference is counted. |
| `ElementCache.Cache.Unref` | src/lib/connman0_7x/e_connman_element.c:1098-1111 | Giving a user's reference back frees the element exactly when neither the registry, a queued event nor another user holds it. |
| `ElementCache.Cache.NextEvent` | src/lib/connman0_7x/e_connman_element.c:71-84 | Delivering an event carries an element that is not freed, and frees it exactly if this was its last holder. |
| `ElementCache.Cache.NothingFreedIsHeld` | src/lib/connman0_7x/e_connman_element.c:71-84 | What the registry or a queued event refers to is not freed and has a positive count. |
| `ElementCache.Cache.ItemRegister` | src/lib/connman0_7x/e_connman_element.c:458-471 | An item is registered exactly if the key lists objects and the path is new: under Profiles, Services and Technologies with the profile, service and technology interface, and under no other key. |
| `ElementCache.Cache.RegisterAll` | src/lib/connman0_7x/e_connman_element.c:1244-1300 | Reading an array registers its new paths in order, one ADD each, and keeps every element registered before. |
| `ElementCache.Cache.UnregisterAll` | src/lib/connman0_7x/e_connman_element.c:558-576 | The removed paths leave the registry, with one DEL for each that was registered, in order. |
| `ElementCache.Cache.MatchArrays` | src/lib/connman0_7x/e_connman_element.c:477-577 | The match unregisters exactly the registered paths that stand more often in the old array, one DEL each, in its order; what it registers is registered already. |
| `ElementCache.Cache.ArrayChanged` | src/lib/connman0_7x/e_connman_element.c:675-685 | Replacing an array: the registry becomes what it was and what was read, less the surplus of the old array; one ADD per new path, then one DEL per removed registered path; each in the order of its array; elements that stay are the same objects, new ones have the interface of their key. |
| `ElementCache.ReplacementIffNoSurplus` | src/lib/connman0_7x/e_connman_element.c:477-577 | The registry ends as (old and new) less (only old) if and only if no path of the new array stands more often in the old one. |
| `ElementCache.ReplacementOfDistinct` | src/lib/connman0_7x/e_connman_element.c:477-577 | So it does for every old array without duplicates. |
| `ElementCache.DuplicateIsDropped` | src/lib/connman0_7x/e_connman_element.c:477-577 | A path listed twice and then once is unregistered although it is still listed. |
| `ElementCache.ListsMeans` | src/lib/connman0_7x/e_connman_element.c:2358-2429 | What a list of announced elements says: no path twice, each the object the registry holds, none left out. |
| `ElementCache.Cache.ClearElements` | src/lib/connman0_7x/e_connman_element.c:2441-2469 | Clearing queues one DEL for every registered element and leaves the registry empty. |
| `RegistryRun.StepArray` | src/lib/connman0_7x/e_connman_element.c:675-685 | An array update takes the run to: the paths and what was read, less the surplus of the old array; the ADDs in the order of the new array, then the DELs in the order of the old one. |
| `RegistryRun.StepUpdated` | src/lib/connman0_7x/e_connman_element.c:173-199 | UPDATED is queued for an element named by its path, by a reference held, or by an event that is still queued, also after its DEL. |
| `RegistryRun.StepRef` | src/lib/connman0_7x/e_connman_element.c:1086-1091 | A reference is taken on an element named in any of these ways, and is held from then on. |
| `RegistryRun.WholeRun` | src/lib/connman0_7x/e_connman_element.c:71-84 | Any run comes to a registry, a queue and held references that its steps can lead to, where only the order in which a cleared registry is announced is open; an element is freed exactly when the registry, the queue and the users have let go of it. |
| `ListedPaths.InStepIff` | src/lib/connman0_7x/e_connman_element.c:477-577 | After any reports of path arrays, for any properties of any objects, the registry holds nothing that is not listed; it holds all that is listed if and only if no listed path was dropped by a property after it was last reported. |
| `ListedPaths.AlwaysInStepIff` | src/lib/connman0_7x/e_connman_element.c:477-577 | The registry is the union of the stored arrays all through a run if and only if no report drops a path that some property still lists. |
| `ListedPaths.ServiceUnregistered` | src/lib/connman0_7x/e_connman_element.c:558-576 | A service that manager and profile list and that leaves the profile is unregistered while the manager still lists it. |
| `ListedPaths.WholeRun` | src/lib/connman0_7x/e_connman_element.c:675-685 | The registry comes to exactly these paths when each array is compared with the one stored for its property. |
| `Properties.Pool.Add` | src/lib/connman0_7x/e_connman_element.c:1022-1023 | Interning shares the one live copy of a text or makes one at an unused address, and keeps all live texts. |
| `Properties.Pool.Del` | src/lib/connman0_7x/e_connman_element.c:1077-1078 | Dropping a share frees the text with the last one and changes no other. |
| `Properties.EntryFree` | src/lib/connman0_7x/e_connman_element.c:215-241 | Freeing a dictionary entry gives back exactly its key and its string value. |
| `Properties.ArrayFree` | src/lib/connman0_7x/e_connman_element.c:349-385 | Freeing an array gives back exactly the shares its items own. |
| `Properties.ValueFree` | src/lib/connman0_7x/e_connman_element.c:387-417 | Freeing a value gives back exactly the shares it owns, for every type. |
| `Properties.StoreText` | src/lib/connman0_7x/e_connman_element.c:634-649 | Dropping the old share before comparing addresses is right: a change is reported exactly if the type or the address differs, and the new string, shared before, is never dropped with it. |
| `Properties.Update` | src/lib/connman0_7x/e_connman_element.c:579-692 | An update leaves the shares balanced for same type, changed type and array to none; the value shows the message; it counts as a change exactly for another type, any array, another scalar or another text. |
| `Properties.ReadArray` | src/lib/connman0_7x/e_connman_element.c:1219-1302 | The array read from a message owns one share per string, shows the message in order, and skips unusable dictionary entries; empty and unsupported arrays give none. What the paths in it register is in LedgerRun.Report. |
| `Properties.EntryAt` | src/lib/connman0_7x/e_connman_element.c:243-333 | Of a dictionary on the wire exactly the entries with a key and a scalar or text value are kept, each at its place. |
| `Properties.EntryNew` | src/lib/connman0_7x/e_connman_element.c:243-333 | A usable dictionary entry owns its key and string value and shows what was sent. |
| `Properties.Record.ValueAdd` | src/lib/connman0_7x/e_connman_element.c:1193-1217 | The first property of the name, and no later one, is updated in place, or one is appended if there is none; exactly the shares of the old and new property are exchanged and every other shared string keeps its text. |
| `Properties.ReplacedAccount` | src/lib/connman0_7x/e_connman_element.c:579-692 | An exact exchange for one property keeps the account of the whole list. |
| `Properties.PropertyChanged` | src/lib/connman0_7x/e_connman_element.c:2282-2343 | In the properties of one element exactly one is new or different, it is the first one of its name, and it shows what was reported, arrays included; every share of these properties is accounted for, no string held by another property or elsewhere changes, and the change is reported exactly if the property is new or differs. |
| `Properties.ShowsArrayKept` | src/lib/connman0_7x/e_connman_element.c:579-692 | An array keeps saying what it said while its strings stay shared, whatever else is freed. |
| `Properties.FreeAll` | src/lib/connman0_7x/e_connman_element.c:1032-1042 | Freeing the properties gives back all their shares and no others. |
| `Properties.ElementLife` | src/lib/connman0_7x/e_connman_element.c:1013-1081 | Over the life of one element, with any properties reported in any order, its own strings and those of its properties all come back; for all elements together LedgerRun.WholeRun says so. |
| `ElementStrings.SumOne` | src/lib/connman0_7x/e_connman_element.c:1013-1081 | What all elements hold together is what one of them holds and what the others hold. |
| `ElementStrings.Share` | src/lib/connman0_7x/e_connman_element.c:1013-1027 | A new element takes one share of its path and one of its interface, and no string changes its text. |
| `ElementStrings.Give` | src/lib/connman0_7x/e_connman_element.c:1032-1081 | Freeing an element gives back its path, its interface and the strings of its properties, once each, and no string held elsewhere changes. |
| `ElementStrings.KeptReplaced` | src/lib/connman0_7x/e_connman_element.c:579-692 | When the properties of one element become others and the pool changes by just that, every share is still one of an element that is not freed or of somebody else, and the others' strings keep their texts. |
| `ElementStrings.StoredIs` | src/lib/connman0_7x/e_connman_element.c:675-679 | The array that a new one is compared with is the array of paths last reported under the name; there is none if something else was reported. |
| `ElementStrings.StoredNone` | src/lib/connman0_7x/e_connman_element.c:675-679 | Nor is there one if no property has the name. |
| `ElementStrings.ShowingReported` | src/lib/connman0_7x/e_connman_element.c:675-692 | A report changes what is stored under its own name, to the paths it brings or to nothing, and nothing under any other name. |
| `ElementStrings.Exchange` | src/lib/connman0_7x/e_connman_element.c:1193-1217 | Exactly one property of exactly one element is new or different and shows what was reported; the arrays stored under other names and by other elements stay; the account of all elements is right again. |
| `ElementStrings.Ledger.TakeStrings` | src/lib/connman0_7x/e_connman_element.c:1013-1027 | A new element joins the account of all elements with its path and interface. |
| `ElementStrings.Ledger.TakeAll` | src/lib/connman0_7x/e_connman_element.c:1244-1300 | So do the elements that reading an array made, and no others. |
| `ElementStrings.Ledger.GiveStrings` | src/lib/connman0_7x/e_connman_element.c:1047-1081 | An element that is freed leaves the account with exactly its strings. |
| `ElementStrings.Ledger.ReportStrings` | src/lib/connman0_7x/e_connman_element.c:2282-2343 | A report changes exactly one property of one element in the account of all. |
| `LedgerRun.Report` | src/lib/connman0_7x/e_connman_element.c:2282-2343 | A reported property goes through the registry and then the pool: an array is compared with the array of paths this element was last reported under the name, the elements it registers take their strings, exactly this property of this element becomes new or different and shows what was reported, and the account of all elements stays right. |
| `LedgerRun.ReportAndPlay` | src/lib/connman0_7x/e_connman_element.c:2282-2343 | An array of paths reported for an element stays stored for it, through any registrations, deliveries, references and reports of other names or elements, until the name is reported again or the element is freed. |
| `LedgerRun.ReportNext` | src/lib/connman0_7x/e_connman_element.c:477-577 | The next report of the name takes the registry to what it was, and what is listed now if the name registers objects, less what stood more often in the stored array; an array that is empty or lists no strings takes away all that was listed. |
| `LedgerRun.StepArray` | src/lib/connman0_7x/e_connman_element.c:1244-1302 | Elements made by an array take their strings, those it unregisters keep theirs until their last holder lets go. |
| `LedgerRun.StepUnref` | src/lib/connman0_7x/e_connman_element.c:1098-1111 | With a user's reference the strings come back exactly if nobody else holds the element. |
| `LedgerRun.StepEvent` | src/lib/connman0_7x/e_connman_element.c:71-84 | So do they with the event that is delivered last. |
| `LedgerRun.WholeRun` | src/lib/connman0_7x/e_connman_element.c:1013-1111 | Over any run of registrations, reports, deliveries and user references, in any order and on any elements, the pool holds what others had before and, for each element that is not freed, its path, its interface and the strings of its properties; once all elements are freed it has exactly the shares it began with. |
| `PendingCalls.Element.MessageSend` | src/lib/connman0_7x/e_connman_element.c:1121-1174 | An accepted call joins the end of its list; a call that could not be sent joins none. |
| `PendingCalls.Element.Dispatch` | src/lib/connman0_7x/e_connman_element.c:86-105 | The callbacks run and the record leaves its list; this goes wrong exactly when a callback drops the last reference. |
| `PendingCalls.Element.Cancel` | src/lib/connman0_7x/e_connman_element.c:107-122 | Every round shortens the list; all calls of the list run, in order, unless a callback revives and drops the element. |
| `PendingCalls.Element.Free` | src/lib/connman0_7x/e_connman_element.c:1044-1081 | Destruction drains the fourteen lists and runs every pending call once, in the order of the lists; it goes wrong exactly when a callback revives and drops the element. |
| `PendingCalls.Element.Reply` | src/lib/connman0_7x/e_connman_element.c:86-105 | A reply runs its call once and keeps exactly-once for all calls if and only if the callbacks do not drop the element's last reference; when they do, the destruction runs the same call a second time. |
| `PendingCalls.Element.Unref` | src/lib/connman0_7x/e_connman_element.c:1098-1111 | The last reference runs all pending calls; any other runs none. |
| `PendingCalls.Element.AllRanOnce` | src/lib/connman0_7x/e_connman_element.c:1044-1174 | When the element is gone, every call ever accepted had its callbacks run exactly once. |
| `PendingCalls.WholeRun` | src/lib/connman0_7x/e_connman_element.c:86-122 | Any run comes to the references, lists and log that the steps say, broken if and only if they say so; until then no accepted call ran twice, and after destruction each ran once. |
| `PendingCalls.RemoveIs` | src/lib/connman0_7x/e_connman_element.c:102-103 | Taking a call off its list leaves all others where they are. |
| `PendingCalls.ListsRise` | src/lib/connman0_7x/e_connman_element.c:86-122 | In every run each of the fourteen lists holds its calls in the order in which they were accepted. |
| `PendingCalls.DrainedInOrder` | src/lib/connman0_7x/e_connman_element.c:1062-1075 | So destruction runs the calls of one list in the order in which they were accepted, and one list after the other. |
| `PendingCalls.AfterCounts` | src/lib/connman0_7x/e_connman_element.c:1086-1111 | The count after some callbacks is the count before, and one for each reference taken, less one for each dropped. |
| `PendingCalls.OnlyTakesNeverBreak` | src/lib/connman0_7x/e_connman_element.c:86-122 | Callbacks that drop no reference never break a run, whatever the steps. |
| `PendingCalls.LastReferenceDropped` | src/lib/connman0_7x/e_connman_element.c:86-105 | A callback that gives back the last reference has its call run twice. |
| `ListenerIdler.Element.ListenerAdd` | src/lib/connman0_7x/e_connman_element.c:124-150 | A listener is appended. |
| `ListenerIdler.Element.ListenerDel` | src/lib/connman0_7x/e_connman_element.c:152-171 | The listener leaves the list, the others keep their order. |
| `ListenerIdler.Element.Report` | src/lib/connman0_7x/e_connman_element.c:201-209 | After a reported change exactly one idler is outstanding. |
| `ListenerIdler.Element.CallAll` | src/lib/connman0_7x/e_connman_element.c:183-184 | The safe iteration leaves what the account of the calls says: one that is added is still called, unless the end of the list had been read; if callbacks add none, exactly the listeners of the list are called, once each and in order, also when they delete themselves. |
| `ListenerIdler.CallsInOrder` | src/lib/connman0_7x/e_connman_element.c:183-184 | So for every account of calls in which none adds a listener. |
| `ListenerIdler.Element.PropertyChanged` | src/lib/connman0_7x/e_connman_element.c:2282-2343 | A change reported at the main loop is remembered until the idler has run. |
| `ListenerIdler.Element.RunIdler` | src/lib/connman0_7x/e_connman_element.c:173-199 | One run calls the listeners in order, queues exactly one UPDATED and ends with no idler; no change reported from outside a callback is lost; nobody is left behind if and only if no callback reported a change that a listener called or passed by then missed. |
| `ListenerIdler.LostMeans` | src/lib/connman0_7x/e_connman_element.c:173-199 | That is: some callback reports, and its own listener or one called before it stays, or the last callback adds a listener and then reports. |
| `ListenerIdler.WholeRun` | src/lib/connman0_7x/e_connman_element.c:173-209 | For all runs, whatever the callbacks do in each call: a change reported from outside a callback is followed by a call of every listener and an UPDATED event, or an idler is outstanding that will do so; and the run, its UPDATED events counted, comes to what its steps say. |
| `ListenerIdler.UpdateLost` | src/lib/connman0_7x/e_connman_element.c:192-206 | A listener whose callback reports a change, once, is not called for it, and no idler is left to do so. |
| `ListenerIdler.Element.Free` | src/lib/connman0_7x/e_connman_element.c:1047-1061 | Destruction leaves no idler and no listener. |
| `ConnmanSystem.SessionCrashesIff` | src/lib/connman0_7x/e_connman.c:142-182 | A session crashes, on comparing with a name that is not there, if and only if the name was owned when it started and an owner exits before the bus answers. |
| `ConnmanSystem.InStepIffNoHandover` | src/lib/connman0_7x/e_connman.c:142-182 | A client that follows the right name stays in step after every change if and only if the name is never handed from one owner directly to another. |
| `ConnmanSystem.AnswerPutsInStep` | src/lib/connman0_7x/e_connman.c:184-209 | An answer that names an owner puts the client in step whatever it missed, and it stays so if and only if no handover follows. |
| `ConnmanSystem.FollowedNeverCrashes` | src/lib/connman0_7x/e_connman.c:164-176 | Once an owner is recorded whenever there is one, no sequence of changes crashes the client. |
| `ConnmanSystem.SessionLastsIff` | src/lib/connman0_7x/e_connman.c:142-182 | For all sequences of changes: a session with an owner lasts through them if and only if none is the exit of that owner itself or the entry of another one. |
| `ConnmanSystem.SessionEndsWith` | src/lib/connman0_7x/e_connman.c:142-182 | The change that ends it leaves no name, or that of the owner who entered. |
| `ConnmanSystem.OwnerEndsIff` | src/lib/connman0_7x/e_connman.c:142-182 | On a bus: while the followed owner holds the name, only its exit ends the session; after a handover nothing does before the next owner has left and another enters. |
| `ConnmanSystem.System.Exit` | src/lib/connman0_7x/e_connman.c:113-121 | An exit queues one DEL for every registered element, then OUT, and leaves the registry empty and no name. |
| `ConnmanSystem.System.Enter` | src/lib/connman0_7x/e_connman.c:123-140 | The name that is followed already is ignored; otherwise a session that was there ends, with its DELs and OUT, then the new one begins with IN and the manager's ADD. |
| `ConnmanSystem.System.SyncElements` | src/lib/connman0_7x/e_connman.c:94-111 | The manager is registered only while a name is followed, once. |
| `ConnmanSystem.System.NameOwnerChanged` | src/lib/connman0_7x/e_connman.c:142-182 | Changes of other names, handovers, the exit of an owner that is not followed and the entry of the one that is leave name, registry, queue and manager events as they were; the entry of another owner restarts the session, the exit of the followed one ends it, and an exit while nobody is followed crashes; the events queued are those the change of the name calls for. |
| `ConnmanSystem.System.GetNameOwner` | src/lib/connman0_7x/e_connman.c:184-209 | The reply is taken once; an error and the name that is followed already change nothing; another name begins a session, after ending the one that was there. |
| `ConnmanSystem.System.Shutdown` | src/lib/connman0_7x/e_connman.c:355-438 | Shutting down ends a running session with its DELs and OUT, cancels the pending query and leaves the registry empty. |
| `ConnmanSystem.System.Init` | src/lib/connman0_7x/e_connman.c:234-337 | The first start asks for the owner of the service; the name, the queue and the registry stay as they are. |
| `ConnmanSystem.AlternatingAt` | src/lib/connman0_7x/e_connman.c:113-140 | IN and OUT strictly alternate, IN first. |
| `ConnmanSystem.WholeRun` | src/lib/connman0_7x/e_connman.c:113-438 | Any run comes to a name, a queue and a registry that its steps can lead to; the manager events announced in it alternate, IN first, and a name is followed exactly when the last was IN. |
| `ConnmanSystem.MovedRenames` | src/lib/connman0_7x/e_connman.c:113-140 | Any move from one followed name to another announces the registry's DELs, OUT, IN and the manager's ADD in this order, each where the pure protocol calls for it. |
| `NotifyImage.Init` | src/lib/notification/notification.c:437-484 | For all positive sizes and strides the image has the object's size, 4 channels and alpha, and its rows are exactly the object's pixels as RGBA samples; otherwise nothing changes. |
| `NotifyImage.InitRowAt` | src/lib/notification/notification.c:462-480 | A row is written where the one before it ends, and no byte of another row changes, so that every byte of the image is written in exactly one row. |
| `NotifyImage.SampleRowAt` | src/lib/notification/notification.c:462-480 | What the description of all rows says of the row y: its bytes are the samples of the object's row y. |
| `NotifyImage.Fill` | src/lib/notification/notification.c:495-539 | Row by row the object's pixels are those of the image, for any channels and strides that are in bounds; other depths leave the pixels alone. |
| `NotifyImage.FilledPixel` | src/lib/notification/notification.c:495-539 | Each pixel of the object: blue, green and red from the third, second and first sample of the image's pixel, alpha from the fourth, or opaque if the image has no alpha, for all channels and strides. |
| `NotifyImage.PixelOfSamples` | src/lib/notification/notification.c:507-527 | The same for a pixel of one row. |
| `NotifyImage.SamplesOfPixel` | src/lib/notification/notification.c:462-480 | The samples of a pixel in the order red, green, blue, alpha. |
| `NotifyImage.InitThenFill` | src/lib/notification/notification.c:437-539 | Filling an object from an image made of another copies every pixel, for all sizes and all strides of at least 4 bytes a pixel. |
| `NotifyImage.PixelsRoundTrip` | src/lib/notification/notification.c:474-527 | A row converted to samples and back is the same row. |
| `NotifyImage.InitLength` | src/lib/notification/marshal.c:641 | The sent length of an image made from an object is 4 bytes a pixel. |
| `NotifyImage.LengthRoundsUp` | src/lib/notification/marshal.c:641 | For any depth the sent length ends with the last pixel of the last row, where a pixel takes as many bytes as its bits need. |
| `NotifyImage.ReadsAreSentIff` | src/lib/notification/marshal.c:641 | Every byte that filling reads is among those sent if and only if there are 3 channels, or 4 with alpha, for all sizes and row strides. |
| `NotifyWire.RoundTrip` | src/lib/notification/marshal.c:370-485 | Reading a written notification gives exactly the notification described by Arrived: strings with null as empty, id, timeout, actions in order, urgency, category, sound, image, and the position if both coordinates are positive. |
| `NotifyWire.Transfer` | src/lib/notification/marshal.c:370-485 | The same for the two procedures: what the receiver holds after a notification was marshalled and unmarshalled. |
| `NotifyWire.Notification.Marshal` | src/lib/notification/marshal.c:370-439 | The writer sets the strings that are missing to the empty one and writes arguments, flattened actions and non-zero hints in order. |
| `NotifyWire.MarshalHints` | src/lib/notification/marshal.c:410-431 | Hints are appended in a fixed order and only when set. |
| `NotifyWire.AllHintsWritten` | src/lib/notification/marshal.c:410-431 | The hints of a note that has them all, key by key. |
| `NotifyWire.Notification.ReadHint` | src/lib/notification/marshal.c:547-625 | One hint is dispatched on its key and sets its field and flag. |
| `NotifyWire.Notification.ReadHints` | src/lib/notification/marshal.c:535-633 | The hint loop applies every hint in order and sets the position only if both coordinates came. |
| `NotifyWire.ReadActions` | src/lib/notification/marshal.c:519-532 | Strings are read in pairs, an odd last one is dropped. |
| `NotifyWire.Unmarshal` | src/lib/notification/marshal.c:441-485 | The reader sets every field from the arguments. |
| `NotifyWire.ReadHints` | src/lib/notification/marshal.c:410-431 | Reading back the written hints, field by field. |
| `NotifyWire.ActionsRoundTrip` | src/lib/notification/marshal.c:393-404 | Actions survive flattening and pairing. |
| `NotifyWire.StringsRoundTripIff` | src/lib/notification/marshal.c:519-532 | A list of strings survives pairing if and only if its length is even. |
| `NotifyWire.UrgencySurvivesIff` | src/lib/notification/marshal.c:412-413 | The receiver reads the sender's urgency except exactly when it was set to low, which is not sent and reads as normal. |
| `NotifyWire.PositionSurvivesIff` | src/lib/notification/marshal.c:426-430 | A position survives if and only if both coordinates are positive. |
| `NotifyWire.DesktopSurvivesIff` | src/lib/notification/marshal.c:418-419 | A desktop entry never arrives. |
| `NotifyWire.FalseClearsIff` | src/lib/notification/notification.c:267-295 | Setting transient, resident or action icons to false clears the flag exactly when it was set. |
| `NotifyWire.SetterBits` | src/lib/notification/notification.c:267-295 | Each of these setters changes its own bit and no other: true sets it, false turns it over. |
| `NotifyWire.UnsentHints` | src/lib/notification/marshal.c:547-625 | What is read from a message with one hint that this library never sends: desktop entry, image path and data under either spelling, icon data; and that transient or resident set to false reads as set. |
| `NotifyWire.HintsCommuteIff` | src/lib/notification/marshal.c:535-633 | The order of two hints with different keys matters if and only if one says that the note is not transient and the other suppresses its sound. |
| `NotifyWire.LastUrgencyWins` | src/lib/notification/marshal.c:535-633 | Of several urgencies in a message the last one is read. |
| `NotifyWire.ResidentClaimsPosition` | src/lib/notification/notification.c:277-285 | Setting resident makes a notification claim a position, since both flags are one bit. |
| `NotifyWire.SharedFlagsOnArrival` | src/lib/notification/notification.c:267-345 | A note arrives as transient exactly when its sound is suppressed, as resident exactly when its position was sent, and never with action icons, whatever its sender set. |
| `NotifyWire.ObjectImageIsWhole` | src/lib/notification/marshal.c:635-665 | An image made from an object is sent without loss. |
| `NotifyDaemon.Note.Unref` | src/lib/notification/notification.c:64-69 | The last reference frees, and only a note that is not freed. |
| `NotifyDaemon.Daemon.Enlist` | src/bin/notification_daemon.c:60-66 | The note joins the open list and the history with one reference each. |
| `NotifyDaemon.Daemon.Trim` | src/bin/notification_daemon.c:68-77 | If the history is too long one note leaves at its front and gives its reference back, and the window start moves by one; otherwise nothing changes. |
| `NotifyDaemon.Daemon.NoteShow` | src/bin/notification_daemon.c:60-93 | Showing keeps all references accounted for and the history within its bound; the window start moves by one exactly if the history was full. |
| `NotifyDaemon.Daemon.Notify` | src/lib/notification/daemon.c:29-45 | The call gets the next id, which is the one to be replaced exactly if that is the next; an open note to be replaced stays open without a signal; the reference that came with the note is given back after it was shown. |
| `NotifyDaemon.ReplacedIdIff` | src/bin/notification_daemon.c:119-139 | After any run a call gets the id it is to replace if and only if no call ever returned that id and every smaller one was returned: never the id of a note that was shown. |
| `NotifyDaemon.ReplacedStaysBeside` | src/bin/notification_daemon.c:119-139 | Whatever a call is to replace, the id it returns is one that no call returned before, the new note is open, every note that was open still is, the one to be replaced included, and nothing is announced as closed. |
| `NotifyDaemon.ReplacedNoteStaysOpen` | src/bin/notification_daemon.c:119-139 | A note shown and then replaced is open under its id beside the one that replaces it. |
| `NotifyDaemon.Daemon.OpenFind` | src/bin/notification_daemon.c:95-105 | The open note of an id is found exactly if there is one. |
| `NotifyDaemon.Daemon.NoteClose` | src/bin/notification_daemon.c:32-44 | A note on the open list is closed, announced once and let go; any other changes nothing. |
| `NotifyDaemon.Daemon.TimerFires` | src/bin/notification_daemon.c:46-58 | The timer closes an open note as expired, lets go of its own reference and is gone. |
| `NotifyDaemon.Daemon.CloseNotification` | src/bin/notification_daemon.c:141-151 | A request closes and announces the open note of that id, and does nothing for any other id. |
| `NotifyDaemon.OnceMeans` | src/bin/notification_daemon.c:32-44 | No two NotificationClosed signals carry the same id. |
| `NotifyDaemon.NoteMeaning` | src/bin/notification_daemon.c:32-93 | A note is open exactly while its closed flag is unset, then has a running timer, and is freed exactly when open list, history window and timer have let go. |
| `NotifyDaemon.HistoryWindow` | src/bin/notification_daemon.c:60-77 | The history holds exactly the ids from history_start to next_id less one, in order. |
| `NotifyDaemon.WholeRun` | src/bin/notification_daemon.c:32-151 | Any run of calls and timers comes to the notes shown, closed and announced and the timers running that its steps say; the history stays within its bound, every reference is accounted for, and each id is announced closed at most once. |

## Left out

- Allocation failures, logging and the null checks of arguments.
- Socket watches, timers and file descriptors of the main loop, and the byte encoding of libdbus.
- Several connections at once: the deletions flag and the count of put-off closes are shared by the whole process, so the results are for one connection.
- A GetNameOwner error other than "no owner", such as a timeout: it is taken to mean that nobody owns the name. The first AddMatch of a handler is taken to block until it is answered, as it passes an error argument.
- `OwnerProtocol.FiresExactly`: speaks of the bus's owner at sending time only for handlers that agree with the bus; which do is the condition of `OwnerProtocol.AgreesForeverIffSafe`.
- `SignalDispatch.Connection.RunActs`: a deletion names a handler by its place in the list, so a handle that is already freed cannot be deleted again; the C interface leaves that to its callers.
- `DispatchLaws.ActingCallbacks`: for callbacks that add and delete; what callbacks that dispatch themselves do is in `DispatchLaws.ScriptInside` and, for any nesting, in `DispatchModel.AfterGood`.
- `MatchRule.BuildRule`: the sender pair is part of the rule's text but its meaning, the owner of a name, is left to the bus; the rule for NameOwnerChanged of one name, which has no length check, is not built.
- `ElementCache.Cache.ArrayChanged`: for arrays of object paths without null items; for other item types the array match does nothing. Reading an array and matching it are one step here; the GetProperties calls that follow a registration send a message and change nothing.
- `Properties.Record.ValueAdd`: properties are values in a sequence field, replaced as a whole where the C code writes the fields of a list node; the registry's part of an array update is in `ElementCache.Cache.ArrayChanged`.
- `Properties.ReadArray`: the elements that paths in an array register, and the strings these take, are in `LedgerRun.Report`. Every byte of a byte array is kept, while eina_array_push refuses a null pointer, and so the zero bytes.
- `Properties.PropertyChanged`: the account of one element; what a report does to the strings of other elements is in `LedgerRun.Report`.
- `Properties.ElementLife`: as in the line before; all elements together are in `LedgerRun.WholeRun`.
- `LedgerRun.WholeRun`: within one report the new elements take their strings after the registry has been updated, where the C code takes them one by one while the array is read. Where objects are registered, an array of paths that is followed by one of strings is taken not to touch the registry, and one followed by bytes or dictionaries to be compared with an empty one. Its steps leave open which array a report is compared with; `LedgerRun.ReportAndPlay` and `LedgerRun.ReportNext` say that it is the one reported last.
- `ListedPaths.WholeRun`: nothing but reports of path arrays happens in these runs; no owner of a property is freed.
- `PendingCalls.Element.Reply`: the two callbacks of a call run back to back and count as one; what the program does after using freed memory is not modelled, the run is only marked as broken. Callbacks send no further call on the same element.
- `ListenerIdler.WholeRun`: callbacks delete no listener but their own and do not drop the element. An idler run that never ends, because callbacks keep adding listeners, is not a run.
- `ConnmanSystem.SessionCrashesIff`: a GetNameOwner error means that nobody owns the name, and a bus announces only real changes.
- `ConnmanSystem.System.Init`: the count of users, the handler that is added for NameOwnerChanged, the interned names and the new table of elements are not part of its contract; the table of a system that is not running is empty (`ConnmanSystem.System.Shutdown`).
- `ConnmanSystem.WholeRun`: the count of system_init calls and the interned property names are not modelled; a start is the one of the first user and a shutdown the one of the last. After the crash nothing more is said of the events.
- `SharedConnection.Bus.RunActs`: one bus type; an application closes only what it acquired.
- `NotifyWire.RoundTrip`: hints are read with the value types the reader takes them for, and a suppress-sound byte is read through the low byte of a boolean, as on a little-endian machine. Image data has at least the bytes of the length formula. Sizes do not overflow 32 bits.
- `NotifyImage.Init`: pixels lie in memory with the low byte first; sizes do not overflow 32 bits.
- `NotifyDaemon.Daemon.Notify`: ids are taken before the counter overflows. Loading the note from the message is in `NotifyWire.dfy`. The clean-up after the main loop ends is left out.
- The capabilities and server information calls, the action-invoked signal, and the client side of the notification library.
- The bluez and ofono clients, which are near copies of the connman one, and the typed getters and setters of services, profiles and technologies.
- HAL, ukit and the introspection of exported objects: calls and unmarshalling driven by libdbus.
