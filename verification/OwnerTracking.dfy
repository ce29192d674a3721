/** What one signal handler knows about the owner of its sender, and when its
    callback runs (src/lib/dbus/e_dbus_signal.c). */
module OwnerTracking {
  import opened Prelude

  const FDO_BUS := "org.freedesktop.DBus"
  const FDO_PATH := "/org/freedesktop/DBus"
  const FDO_INTERFACE := "org.freedesktop.DBus"
  const NAME_OWNER_CHANGED := "NameOwnerChanged"

  /** A signal as it reaches the dispatcher; args holds its string arguments. */
  datatype Signal = Signal(sender: string, path: string, iface: string, member: string, args: seq<string>)

  /** The fields of a handler that dispatching reads and writes. */
  datatype View = View(
    sender: Option<string>,
    path: Option<string>,
    iface: Option<string>,
    member: Option<string>,
    callback: bool,
    pending: bool,
    owner: Option<string>,
    deleteMe: bool)

  /** Unique connection names start with a colon and never change hands. */
  predicate IsUnique(name: string) {
    |name| > 0 && name[0] == ':'
  }

  /** Names whose owner has to be asked for. */
  predicate WellKnown(name: string) {
    !IsUnique(name) && name != FDO_BUS
  }

  predicate IsOwnerChange(sg: Signal) {
    && sg.sender == FDO_BUS
    && sg.path == FDO_PATH
    && sg.iface == FDO_INTERFACE
    && sg.member == NAME_OWNER_CHANGED
  }

  /** The three string arguments of NameOwnerChanged can be read. */
  predicate ArgsReadable(sg: Signal) {
    |sg.args| >= 3
  }

  function ChangeSignal(name: string, from: string, to: string): Signal {
    Signal(FDO_BUS, FDO_PATH, FDO_INTERFACE, NAME_OWNER_CHANGED, [name, from, to])
  }

  function NewView(sender: Option<string>, path: Option<string>, iface: Option<string>,
                   member: Option<string>, callback: bool): View
  {
    var tracked := sender.Some? && WellKnown(sender.value);
    View(sender, path, iface, member, callback, tracked, if tracked then None else sender, false)
  }

  predicate Tracked(v: View) {
    v.sender.Some? && WellKnown(v.sender.value)
  }

  /** First loop of the dispatcher: a readable owner change for this sender. */
  function OnSignal(v: View, sg: Signal): View {
    if IsOwnerChange(sg) && ArgsReadable(sg) && !v.deleteMe && v.sender == Some(sg.args[0])
    then v.(owner := NonEmpty(sg.args[2]))
    else v
  }

  /** The GetNameOwner reply; None stands for an error reply. */
  function OnReply(v: View, name: Option<string>): View {
    if name.Some? && name.value != ""
    then v.(pending := false, owner := name)
    else v.(pending := false)
  }

  /** Deletion cancels the pending call and marks the handler. */
  function OnDelete(v: View): View {
    v.(pending := false, deleteMe := true)
  }

  /** The path, interface and member part of the handler's own filter. */
  predicate LocalMatch(v: View, sg: Signal) {
    && (v.path.Some? ==> v.path.value == sg.path)
    && (v.iface.Some? ==> v.iface.value == sg.iface)
    && (v.member.Some? ==> v.member.value == sg.member)
  }

  /** Second loop of the dispatcher: whether the callback is called. */
  predicate Fires(v: View, sg: Signal) {
    && v.callback
    && !v.deleteMe
    && !(v.pending || (v.owner.Some? && v.owner.value != sg.sender))
    && LocalMatch(v, sg)
  }
}
