/** The Notify call on the wire: a notification is written as the arguments susssasa{sv}i
    and read back (src/lib/notification/marshal.c, setters of notification.c). Bytes and
    booleans share their low byte in memory. */
module NotifyWire {
  import opened Prelude
  import NotifyImage

  // ----- wire format

  datatype WireImage = WireImage(width: int, height: int, rowstride: int, hasAlpha: bool,
                                 bitsPerSample: int, channels: int, data: seq<bv8>)

  datatype Variant =
    | VByte(b: bv8)
    | VBool(t: bool)
    | VInt(i: int)
    | VString(s: string)
    | VImage(image: WireImage)
    | VOther

  datatype Hint = Hint(key: string, value: Variant)

  datatype Call = Call(appName: string, replacesId: int, appIcon: string, summary: string, body: string,
                       actions: seq<string>, hints: seq<Hint>, timeout: int)

  // ----- notifications

  datatype Action = Action(id: string, name: string)

  const URGENCY: bv8 := 0x01
  const CATEGORY: bv8 := 0x02
  const DESKTOP: bv8 := 0x04
  const SOUND_FILE: bv8 := 0x08
  const TRANSIENT: bv8 := 0x10
  const RESIDENT: bv8 := 0x20
  const ACTION_ICONS: bv8 := 0x40
  const SUPPRESS_SOUND: bv8 := 0x10
  const XY: bv8 := 0x20
  const IMAGE_DATA: bv8 := 0x40

  datatype Hints = Hints(urgency: bv8, category: Option<string>, desktop: Option<string>, soundFile: Option<string>,
                         imagePath: Option<string>, suppressSound: bv8, x: int, y: int,
                         imageData: Option<WireImage>, iconData: Option<WireImage>)

  /** What a notification holds apart from its id, closed flag and reference count. */
  datatype Note = Note(appName: Option<string>, replacesId: int, appIcon: Option<string>, summary: Option<string>,
                       body: Option<string>, timeout: int, actions: seq<Action>, hints: Hints, flags: bv8)

  const NO_HINTS := Hints(0, None, None, None, None, 0, 0, 0, None, None)
  const NEW_NOTE := Note(None, 0, None, None, None, 0, [], NO_HINTS, 0)

  // ----- accessors

  function UrgencyGet(n: Note): bv8 {
    if n.flags & URGENCY != 0 then n.hints.urgency else 1
  }

  /** The position, if the notification says it has one. */
  function PositionGet(n: Note): Option<(int, int)> {
    if n.flags & XY != 0 then Some((n.hints.x, n.hints.y)) else None
  }

  /** transient_set, resident_set and action_icons_set: setting exclusive-ors when the value is false. */
  function FlagSet(n: Note, flag: bv8, on: bool): Note {
    n.(flags := if on then n.flags | flag else n.flags ^ flag)
  }

  /** Setting a hint to false clears its flag exactly when it was set before. */
  lemma FalseClearsIff(n: Note, flag: bv8)
    requires flag in {TRANSIENT, RESIDENT, ACTION_ICONS}
    ensures FlagSet(n, flag, false).flags & flag == 0 <==> n.flags & flag != 0
  {}

  /** A setter touches its own bit and nothing else: true sets it, false turns it over. */
  lemma SetterBits(n: Note, flag: bv8, on: bool)
    requires flag in {TRANSIENT, RESIDENT, ACTION_ICONS}
    ensures var r := FlagSet(n, flag, on);
            && r == n.(flags := r.flags) && r.flags & (flag ^ 0xff) == n.flags & (flag ^ 0xff)
            && (r.flags & flag != 0 <==> on || n.flags & flag == 0)
  {}

  /** The resident flag and the position flag are one bit: a resident notification claims a
      position it was never given. */
  lemma ResidentClaimsPosition(n: Note)
    ensures PositionGet(FlagSet(n, RESIDENT, true)) == Some((n.hints.x, n.hints.y))
  {}

  // ----- writing

  function Text(s: Option<string>): string {
    if s.Some? then s.value else ""
  }

  /** Strings that are missing are set to "" before they are sent. */
  function Filled(n: Note): Note {
    n.(appName := Some(Text(n.appName)), appIcon := Some(Text(n.appIcon)),
       summary := Some(Text(n.summary)), body := Some(Text(n.body)))
  }

  predicate Sendable(image: WireImage) {
    0 <= Length(image) <= |image.data|
  }

  function Length(image: WireImage): int {
    NotifyImage.DataLength(image.width, image.height, image.rowstride, image.channels, image.bitsPerSample)
  }

  /** The image as it is sent: only the bytes that the length formula covers. */
  function Cut(image: WireImage): WireImage
    requires Sendable(image)
  {
    image.(data := image.data[..Length(image)])
  }

  predicate NoteSendable(n: Note) {
    n.hints.imageData.Some? ==> Sendable(n.hints.imageData.value)
  }

  function ByteHint(key: string, b: bv8): seq<Hint> {
    if b != 0 then [Hint(key, VByte(b))] else []
  }

  function IntHint(key: string, i: int): seq<Hint> {
    if i != 0 then [Hint(key, VInt(i))] else []
  }

  function StringHint(key: string, s: Option<string>): seq<Hint> {
    if s.Some? then [Hint(key, VString(s.value))] else []
  }

  function ImageHint(image: Option<WireImage>): seq<Hint>
    requires image.Some? ==> Sendable(image.value)
  {
    if image.Some? then [Hint("image-data", VImage(Cut(image.value)))] else []
  }

  function PositionHints(x: int, y: int): seq<Hint> {
    if x > -1 && y > -1 then IntHint("x", x) + IntHint("y", y) else []
  }

  function HintsOf(h: Hints): seq<Hint>
    requires h.imageData.Some? ==> Sendable(h.imageData.value)
  {
    ByteHint("urgency", h.urgency) + StringHint("category", h.category) + StringHint("desktop_entry", h.desktop)
    + ImageHint(h.imageData) + StringHint("sound-file", h.soundFile) + ByteHint("suppress-sound", h.suppressSound)
    + PositionHints(h.x, h.y)
  }

  function Flatten(actions: seq<Action>): seq<string> {
    if actions == [] then [] else
      var a := actions[|actions| - 1];
      Flatten(actions[..|actions| - 1]) + [a.id, a.name]
  }

  function Marshalled(n: Note): Call
    requires NoteSendable(n)
  {
    Call(Text(n.appName), n.replacesId, Text(n.appIcon), Text(n.summary), Text(n.body),
         Flatten(n.actions), HintsOf(n.hints), n.timeout)
  }

  // ----- reading

  datatype Key = KUrgency | KCategory | KDesktop | KImagePath | KImageData | KSoundFile | KSuppressSound
               | KTransient | KResident | KX | KY | KIconData | KUnknown

  /** The chain of comparisons that dispatches a hint. */
  function KeyOf(key: string): Key {
    if key == "urgency" then KUrgency
    else if key == "category" then KCategory
    else if key == "desktop-entry" then KDesktop
    else if |key| >= 5 && key[..5] == "image" then
      if |key| == 5 || (key[5] != '-' && key[5] != '_') then KUnknown
      else if key[6..] == "path" then KImagePath
      else if key[6..] == "data" then KImageData
      else KUnknown
    else if key == "sound-file" then KSoundFile
    else if key == "suppress-sound" then KSuppressSound
    else if key == "transient" then KTransient
    else if key == "resident" then KResident
    else if key == "x" then KX
    else if key == "y" then KY
    else if key == "icon_data" then KIconData
    else KUnknown
  }

  /** The hints carry values of the types the reader takes them for. */
  predicate Typed(h: Hint) {
    match KeyOf(h.key)
    case KUrgency => h.value.VByte?
    case KCategory => h.value.VString?
    case KDesktop => h.value.VString?
    case KImagePath => h.value.VString?
    case KSoundFile => h.value.VString?
    case KSuppressSound => h.value.VByte? || h.value.VBool?
    case KTransient => h.value.VBool?
    case KResident => h.value.VBool?
    case KX => h.value.VInt?
    case KY => h.value.VInt?
    case _ => true
  }

  predicate AllTyped(hs: seq<Hint>) {
    hs == [] || (Typed(hs[0]) && AllTyped(hs[1..]))
  }

  function LowByte(v: Variant): bv8 {
    match v
    case VByte(b) => b
    case VBool(t) => if t then 1 else 0
    case _ => 0
  }

  /** An image of another signature reads as no image. */
  function ImageIn(v: Variant): Option<WireImage> {
    if v.VImage? then Some(v.image) else None
  }

  /** The notification so far and the coordinates seen. */
  datatype Progress = Progress(n: Note, x: Option<int>, y: Option<int>)

  function ApplyHint(p: Progress, h: Hint): Progress
    requires Typed(h)
  {
    var n := p.n;
    match KeyOf(h.key)
    case KUrgency => p.(n := n.(hints := n.hints.(urgency := h.value.b), flags := n.flags | URGENCY))
    case KCategory => p.(n := n.(hints := n.hints.(category := Some(h.value.s)), flags := n.flags | CATEGORY))
    case KDesktop => p.(n := n.(hints := n.hints.(desktop := Some(h.value.s)), flags := n.flags | DESKTOP))
    case KImagePath => p.(n := n.(hints := n.hints.(imagePath := Some(h.value.s))))
    case KImageData => p.(n := n.(hints := n.hints.(imageData := ImageIn(h.value))))
    case KSoundFile => p.(n := n.(hints := n.hints.(soundFile := Some(h.value.s)), flags := n.flags | SOUND_FILE))
    case KSuppressSound =>
      p.(n := n.(hints := n.hints.(suppressSound := LowByte(h.value)), flags := n.flags | SUPPRESS_SOUND))
    case KTransient => p.(n := FlagSet(n, TRANSIENT, h.value.t))
    case KResident => p.(n := FlagSet(n, RESIDENT, h.value.t))
    case KX => p.(x := Some(h.value.i))
    case KY => p.(y := Some(h.value.i))
    case KIconData => p.(n := n.(hints := n.hints.(iconData := ImageIn(h.value))))
    case KUnknown => p
  }

  function Fold(p: Progress, hs: seq<Hint>): Progress
    requires AllTyped(hs)
    decreases |hs|
  {
    if hs == [] then p else Fold(ApplyHint(p, hs[0]), hs[1..])
  }

  /** The position is set only when both coordinates were seen. */
  function Finish(p: Progress): Note {
    if p.x.Some? && p.y.Some?
    then p.n.(hints := p.n.hints.(x := p.x.value, y := p.y.value), flags := p.n.flags | XY)
    else p.n
  }

  /** Actions are read in pairs; an odd string at the end is dropped. */
  function Pairs(strings: seq<string>): seq<Action> {
    if |strings| < 2 then [] else [Action(strings[0], strings[1])] + Pairs(strings[2..])
  }

  function Unmarshalled(c: Call): Note
    requires AllTyped(c.hints)
  {
    var n := NEW_NOTE.(appName := Some(c.appName), replacesId := c.replacesId, appIcon := Some(c.appIcon),
                       summary := Some(c.summary), body := Some(c.body), actions := Pairs(c.actions));
    Finish(Fold(Progress(n, None, None), c.hints)).(timeout := c.timeout)
  }

  // ----- one hint of another sender

  /** The keys that other senders may use. */
  lemma UnsentKeys()
    ensures KeyOf("desktop-entry") == KDesktop && KeyOf("icon_data") == KIconData
    ensures KeyOf("transient") == KTransient && KeyOf("resident") == KResident
  {
    assert "desktop-entry"[0] == 'd' && "icon_data"[1] == 'c' && "transient"[0] == 't' && "resident"[0] == 'r';
  }

  lemma ImageKeys()
    ensures KeyOf("image-path") == KImagePath && KeyOf("image_path") == KImagePath
    ensures KeyOf("image-data") == KImageData && KeyOf("image_data") == KImageData
    ensures KeyOf("image") == KUnknown && KeyOf("imagepath") == KUnknown
  {
    assert "image-path"[..5] == "image" && "image-path"[6..] == "path";
    assert "image_path"[..5] == "image" && "image_path"[6..] == "path";
    assert "image-data"[..5] == "image" && "image-data"[6..] == "data";
    assert "image_data"[..5] == "image" && "image_data"[6..] == "data";
    assert "image"[..5] == "image" && "imagepath"[..5] == "image" && "imagepath"[5] == 'p';
  }

  /** A message with one hint. */
  predicate OneHint(c: Call, key: string, value: Variant) {
    c.hints == [Hint(key, value)]
  }

  lemma ReadOne(c: Call, key: string, value: Variant, n: Note)
    requires OneHint(c, key, value) && Typed(Hint(key, value))
    requires n == NEW_NOTE.(appName := Some(c.appName), replacesId := c.replacesId, appIcon := Some(c.appIcon),
                            summary := Some(c.summary), body := Some(c.body), actions := Pairs(c.actions))
    ensures AllTyped(c.hints)
    ensures Unmarshalled(c) == Finish(ApplyHint(Progress(n, None, None), Hint(key, value))).(timeout := c.timeout)
  {
    FoldOne(Progress(n, None, None), Hint(key, value));
  }

  /** What a note holds that was read with one hint that this library never sends: the desktop
      entry and the path under their own fields, without a flag for the path; and a transient or
      resident hint sets its flag even when it is false. */
  lemma UnsentHints(c: Call, key: string, value: Variant)
    requires OneHint(c, key, value)
    ensures key == "desktop-entry" && value.VString? ==>
              && AllTyped(c.hints)
              && Unmarshalled(c).hints == NO_HINTS.(desktop := Some(value.s)) && Unmarshalled(c).flags == 0x04
    ensures key in {"image-path", "image_path"} && value.VString? ==>
              && AllTyped(c.hints)
              && Unmarshalled(c).hints == NO_HINTS.(imagePath := Some(value.s)) && Unmarshalled(c).flags == 0
    ensures key in {"image-data", "image_data"} && value.VImage? ==>
              && AllTyped(c.hints)
              && Unmarshalled(c).hints == NO_HINTS.(imageData := Some(value.image)) && Unmarshalled(c).flags == 0
    ensures key == "icon_data" && value.VImage? ==>
              && AllTyped(c.hints)
              && Unmarshalled(c).hints == NO_HINTS.(iconData := Some(value.image)) && Unmarshalled(c).flags == 0
    ensures key == "transient" && value.VBool? ==>
              AllTyped(c.hints) && Unmarshalled(c).hints == NO_HINTS && Unmarshalled(c).flags == 0x10
    ensures key == "resident" && value.VBool? ==>
              && AllTyped(c.hints)
              && Unmarshalled(c).hints == NO_HINTS && PositionGet(Unmarshalled(c)) == Some((0, 0))
  {
    var n := NEW_NOTE.(appName := Some(c.appName), replacesId := c.replacesId, appIcon := Some(c.appIcon),
                       summary := Some(c.summary), body := Some(c.body), actions := Pairs(c.actions));
    UnsentKeys();
    ImageKeys();
    if Typed(Hint(key, value)) {
      ReadOne(c, key, value, n);
    }
  }

  /** The flag that a hint concerns, and whether it turns it over instead of setting it. */
  function HintFlag(h: Hint): bv8 {
    match KeyOf(h.key)
    case KUrgency => URGENCY
    case KCategory => CATEGORY
    case KDesktop => DESKTOP
    case KSoundFile => SOUND_FILE
    case KSuppressSound => SUPPRESS_SOUND
    case KTransient => TRANSIENT
    case KResident => RESIDENT
    case _ => 0
  }

  predicate TurnsOver(h: Hint) {
    h.value == VBool(false) && (KeyOf(h.key) == KTransient || KeyOf(h.key) == KResident)
  }

  function Flagged(f: bv8, flag: bv8, over: bool): bv8 {
    if over then f ^ flag else f | flag
  }

  function Unflagged(p: Progress): Progress {
    p.(n := p.n.(flags := 0))
  }

  lemma HintFlags(p: Progress, h: Hint)
    requires Typed(h)
    ensures ApplyHint(p, h).n.flags == Flagged(p.n.flags, HintFlag(h), TurnsOver(h))
  {
    NoFlag(p.n.flags);
  }

  lemma NoFlag(f: bv8)
    ensures f | 0 == f
  {}

  lemma HintFields(p: Progress, h: Hint)
    requires Typed(h)
    ensures Unflagged(ApplyHint(p, h)) == Unflagged(ApplyHint(Unflagged(p), h))
  {}

  lemma BothSet(f: bv8, a: bv8, b: bv8, ab: bv8, ba: bv8)
    requires ab == Flagged(Flagged(f, a, false), b, false) && ba == Flagged(Flagged(f, b, false), a, false)
    ensures ab == ba
  {}

  lemma BothTurnOver(f: bv8, a: bv8, b: bv8, ab: bv8, ba: bv8)
    requires ab == Flagged(Flagged(f, a, true), b, true) && ba == Flagged(Flagged(f, b, true), a, true)
    ensures ab == ba
  {}

  lemma SetAndTurnOver(f: bv8, a: bv8, b: bv8, ab: bv8, ba: bv8)
    requires ab == Flagged(Flagged(f, a, false), b, true) && ba == Flagged(Flagged(f, b, true), a, false)
    ensures ab == ba <==> a & b == 0
    ensures a & b == b & a
  {}

  lemma FlagsCommute(f: bv8, a: bv8, b: bv8, aOver: bool, bOver: bool, ab: bv8, ba: bv8)
    requires ab == Flagged(Flagged(f, a, aOver), b, bOver) && ba == Flagged(Flagged(f, b, bOver), a, aOver)
    ensures ab == ba <==> aOver == bOver || a & b == 0
  {
    if aOver && bOver {
      BothTurnOver(f, a, b, ab, ba);
    } else if aOver {
      SetAndTurnOver(f, b, a, ba, ab);
    } else if bOver {
      SetAndTurnOver(f, a, b, ab, ba);
    } else {
      BothSet(f, a, b, ab, ba);
    }
  }

  lemma FieldsCommute(p: Progress, a: Hint, b: Hint)
    requires Typed(a) && Typed(b) && KeyOf(a.key) != KeyOf(b.key) && p == Unflagged(p)
    ensures Unflagged(ApplyHint(Unflagged(ApplyHint(p, a)), b)) == Unflagged(ApplyHint(Unflagged(ApplyHint(p, b)), a))
  {}

  /** Hints are applied in order: of several urgencies the last one counts. */
  lemma LastUrgencyWins(c: Call, hs: seq<Hint>, b: bv8)
    requires AllTyped(hs) && c.hints == hs + [Hint("urgency", VByte(b))]
    ensures AllTyped(c.hints) && UrgencyGet(Unmarshalled(c)) == b
  {
    var n := NEW_NOTE.(appName := Some(c.appName), replacesId := c.replacesId, appIcon := Some(c.appIcon),
                       summary := Some(c.summary), body := Some(c.body), actions := Pairs(c.actions));
    var p := Fold(Progress(n, None, None), hs);
    WrittenKeys();
    FoldOne(p, Hint("urgency", VByte(b)));
    FoldCat(Progress(n, None, None), hs, [Hint("urgency", VByte(b))]);
    UrgencyStays(p.n.flags);
  }

  lemma UrgencyStays(f: bv8)
    ensures (f | URGENCY) & URGENCY != 0 && ((f | URGENCY) | XY) & URGENCY != 0
  {}

  /** One turns the transient flag over, the other sets the same bit. */
  predicate Clash(a: Hint, b: Hint) {
    KeyOf(a.key) == KTransient && a.value == VBool(false) && KeyOf(b.key) == KSuppressSound
  }

  lemma ClashIff(a: Hint, b: Hint)
    requires Typed(a) && Typed(b) && KeyOf(a.key) != KeyOf(b.key)
    ensures TurnsOver(a) == TurnsOver(b) || HintFlag(a) & HintFlag(b) == 0 <==> !Clash(a, b) && !Clash(b, a)
  {}

  /** The order of two hints with different keys matters exactly if one says that the note is not
      transient and the other that its sound is to be suppressed. */
  lemma HintsCommuteIff(p: Progress, a: Hint, b: Hint)
    requires Typed(a) && Typed(b) && KeyOf(a.key) != KeyOf(b.key)
    ensures ApplyHint(ApplyHint(p, a), b) == ApplyHint(ApplyHint(p, b), a) <==> !Clash(a, b) && !Clash(b, a)
  {
    var ab, ba := ApplyHint(ApplyHint(p, a), b), ApplyHint(ApplyHint(p, b), a);
    HintPair(p, a, b);
    HintPair(p, b, a);
    FieldsCommute(Unflagged(p), a, b);
    FlagsCommute(p.n.flags, HintFlag(a), HintFlag(b), TurnsOver(a), TurnsOver(b), ab.n.flags, ba.n.flags);
    ClashIff(a, b);
    SameButFlags(ab, ba);
  }

  lemma HintPair(p: Progress, a: Hint, b: Hint)
    requires Typed(a) && Typed(b)
    ensures var ab := ApplyHint(ApplyHint(p, a), b);
            && ab.n.flags == Flagged(Flagged(p.n.flags, HintFlag(a), TurnsOver(a)), HintFlag(b), TurnsOver(b))
            && Unflagged(ab) == Unflagged(ApplyHint(Unflagged(ApplyHint(Unflagged(p), a)), b))
  {
    HintFlags(p, a);
    HintFlags(ApplyHint(p, a), b);
    HintFields(p, a);
    HintFields(ApplyHint(p, a), b);
  }

  lemma SameButFlags(p: Progress, q: Progress)
    requires Unflagged(p) == Unflagged(q)
    ensures p == q <==> p.n.flags == q.n.flags
  {
    assert p.n == Unflagged(p).n.(flags := p.n.flags) && q.n == Unflagged(q).n.(flags := q.n.flags);
  }

  // ----- the round trip

  lemma {:induction false} TypedCat(a: seq<Hint>, b: seq<Hint>)
    ensures AllTyped(a + b) <==> AllTyped(a) && AllTyped(b)
  {
    if a == [] {
      assert a + b == b;
    } else {
      assert (a + b)[1..] == a[1..] + b;
      TypedCat(a[1..], b);
    }
  }

  lemma {:induction false} FoldCat(p: Progress, a: seq<Hint>, b: seq<Hint>)
    requires AllTyped(a) && AllTyped(b)
    ensures AllTyped(a + b) && Fold(p, a + b) == Fold(Fold(p, a), b)
    decreases |a|
  {
    TypedCat(a, b);
    if a == [] {
      assert a + b == b;
    } else {
      assert (a + b)[1..] == a[1..] + b;
      FoldCat(ApplyHint(p, a[0]), a[1..], b);
    }
  }

  lemma FoldOne(p: Progress, h: Hint)
    requires Typed(h)
    ensures AllTyped([h]) && Fold(p, [h]) == ApplyHint(p, h)
  {
    assert [h][1..] == [];
  }

  /** The keys that are written, as the reader takes them. */
  lemma WrittenKeys()
    ensures KeyOf("urgency") == KUrgency && KeyOf("category") == KCategory && KeyOf("desktop_entry") == KUnknown
    ensures KeyOf("image-data") == KImageData && KeyOf("sound-file") == KSoundFile
    ensures KeyOf("suppress-sound") == KSuppressSound && KeyOf("x") == KX && KeyOf("y") == KY
  {
    assert "image-data"[..5] == "image" && "image-data"[6..] == "data";
    assert "desktop_entry"[7] != "desktop-entry"[7];
    assert "suppress-sound"[1] == 'u';
    assert "sound-file"[1] == 'o';
  }

  /** What the reader makes of the hints of one field each. */
  function WithUrgency(n: Note, b: bv8): Note {
    if b != 0 then n.(hints := n.hints.(urgency := b), flags := n.flags | URGENCY) else n
  }

  function WithCategory(n: Note, s: Option<string>): Note {
    if s.Some? then n.(hints := n.hints.(category := s), flags := n.flags | CATEGORY) else n
  }

  function WithImage(n: Note, image: Option<WireImage>): Note
    requires image.Some? ==> Sendable(image.value)
  {
    if image.Some? then n.(hints := n.hints.(imageData := Some(Cut(image.value)))) else n
  }

  function WithSound(n: Note, s: Option<string>): Note {
    if s.Some? then n.(hints := n.hints.(soundFile := s), flags := n.flags | SOUND_FILE) else n
  }

  function WithSuppress(n: Note, b: bv8): Note {
    if b != 0 then n.(hints := n.hints.(suppressSound := b), flags := n.flags | SUPPRESS_SOUND) else n
  }

  lemma ReadStrings(p: Progress, s: Option<string>)
    ensures AllTyped(StringHint("category", s)) && Fold(p, StringHint("category", s)) == p.(n := WithCategory(p.n, s))
    ensures AllTyped(StringHint("desktop_entry", s)) && Fold(p, StringHint("desktop_entry", s)) == p
    ensures AllTyped(StringHint("sound-file", s)) && Fold(p, StringHint("sound-file", s)) == p.(n := WithSound(p.n, s))
  {
    WrittenKeys();
    if s.Some? {
      FoldOne(p, Hint("category", VString(s.value)));
      FoldOne(p, Hint("desktop_entry", VString(s.value)));
      FoldOne(p, Hint("sound-file", VString(s.value)));
    }
  }

  lemma ReadBytes(p: Progress, b: bv8)
    ensures AllTyped(ByteHint("urgency", b)) && Fold(p, ByteHint("urgency", b)) == p.(n := WithUrgency(p.n, b))
    ensures AllTyped(ByteHint("suppress-sound", b))
    ensures Fold(p, ByteHint("suppress-sound", b)) == p.(n := WithSuppress(p.n, b))
  {
    WrittenKeys();
    if b != 0 {
      FoldOne(p, Hint("urgency", VByte(b)));
      FoldOne(p, Hint("suppress-sound", VByte(b)));
    }
  }

  lemma ReadImage(p: Progress, image: Option<WireImage>)
    requires image.Some? ==> Sendable(image.value)
    ensures AllTyped(ImageHint(image)) && Fold(p, ImageHint(image)) == p.(n := WithImage(p.n, image))
  {
    WrittenKeys();
    if image.Some? {
      FoldOne(p, Hint("image-data", VImage(Cut(image.value))));
    }
  }

  function Coordinate(on: bool, i: int): Option<int> {
    if on && i != 0 then Some(i) else None
  }

  lemma ReadPosition(p: Progress, x: int, y: int)
    requires p.x.None? && p.y.None?
    ensures AllTyped(PositionHints(x, y))
    ensures var on := x > -1 && y > -1;
            Fold(p, PositionHints(x, y)) == p.(x := Coordinate(on, x), y := Coordinate(on, y))
  {
    WrittenKeys();
    FoldOne(p, Hint("x", VInt(x)));
    FoldOne(p.(x := Coordinate(true, x)), Hint("y", VInt(y)));
    FoldCat(p, IntHint("x", x), IntHint("y", y));
  }

  /** The hints of a note that has them all, in their order. */
  lemma AllHintsWritten(h: Hints)
    requires h.urgency != 0 && h.suppressSound != 0 && h.x > 0 && h.y > 0
    requires h.category.Some? && h.desktop.Some? && h.soundFile.Some? && h.imageData.Some?
    requires Sendable(h.imageData.value)
    ensures HintsOf(h) ==
            [Hint("urgency", VByte(h.urgency)), Hint("category", VString(h.category.value)),
             Hint("desktop_entry", VString(h.desktop.value)), Hint("image-data", VImage(Cut(h.imageData.value))),
             Hint("sound-file", VString(h.soundFile.value)), Hint("suppress-sound", VByte(h.suppressSound)),
             Hint("x", VInt(h.x)), Hint("y", VInt(h.y))]
  {}

  /** Reading back the hints of a notification, field by field. */
  lemma ReadHints(n: Note, h: Hints)
    requires h.imageData.Some? ==> Sendable(h.imageData.value)
    ensures AllTyped(HintsOf(h))
    ensures var on := h.x > -1 && h.y > -1;
            Fold(Progress(n, None, None), HintsOf(h)) ==
            Progress(WithSuppress(WithSound(WithImage(WithCategory(WithUrgency(n, h.urgency), h.category),
                                                      h.imageData), h.soundFile), h.suppressSound),
                     Coordinate(on, h.x), Coordinate(on, h.y))
  {
    var p0 := Progress(n, None, None);
    var a1, a2 := ByteHint("urgency", h.urgency), StringHint("category", h.category);
    var a3, a4 := StringHint("desktop_entry", h.desktop), ImageHint(h.imageData);
    var a5, a6 := StringHint("sound-file", h.soundFile), ByteHint("suppress-sound", h.suppressSound);
    var a7 := PositionHints(h.x, h.y);
    ReadBytes(p0, h.urgency);
    var p1 := Fold(p0, a1);
    ReadStrings(p1, h.category);
    var p2 := Fold(p1, a2);
    ReadStrings(p2, h.desktop);
    ReadImage(p2, h.imageData);
    var p4 := Fold(p2, a4);
    ReadStrings(p4, h.soundFile);
    var p5 := Fold(p4, a5);
    ReadBytes(p5, h.suppressSound);
    var p6 := Fold(p5, a6);
    ReadPosition(p6, h.x, h.y);
    FoldCat(p0, a1, a2);
    FoldCat(p0, a1 + a2, a3);
    FoldCat(p0, a1 + a2 + a3, a4);
    FoldCat(p0, a1 + a2 + a3 + a4, a5);
    FoldCat(p0, a1 + a2 + a3 + a4 + a5, a6);
    FoldCat(p0, a1 + a2 + a3 + a4 + a5 + a6, a7);
  }

  lemma {:induction false} PairsOfFlat(actions: seq<Action>, rest: seq<string>)
    ensures Pairs(Flatten(actions) + rest) == actions + Pairs(rest)
  {
    if actions == [] {
      assert Flatten(actions) + rest == rest && actions + Pairs(rest) == Pairs(rest);
    } else {
      var front, a := actions[..|actions| - 1], actions[|actions| - 1];
      var rest' := [a.id, a.name] + rest;
      assert Flatten(actions) + rest == Flatten(front) + rest';
      PairsOfFlat(front, rest');
      assert rest'[2..] == rest;
      assert actions + Pairs(rest) == front + ([a] + Pairs(rest));
    }
  }

  lemma ActionsRoundTrip(actions: seq<Action>)
    ensures Pairs(Flatten(actions)) == actions
  {
    PairsOfFlat(actions, []);
    assert Flatten(actions) + [] == Flatten(actions);
  }

  function FlagIf(on: bool, flag: bv8): bv8 {
    if on then flag else 0
  }

  /** The notification that arrives when n is sent. */
  function Arrived(n: Note): Note
    requires NoteSendable(n)
  {
    var h := n.hints;
    var placed := h.x > 0 && h.y > 0;
    Note(Some(Text(n.appName)), n.replacesId, Some(Text(n.appIcon)), Some(Text(n.summary)), Some(Text(n.body)),
         n.timeout, n.actions,
         Hints(h.urgency, h.category, None, h.soundFile, None, h.suppressSound,
               if placed then h.x else 0, if placed then h.y else 0,
               if h.imageData.Some? then Some(Cut(h.imageData.value)) else None, None),
         FlagIf(h.urgency != 0, URGENCY) | FlagIf(h.category.Some?, CATEGORY) | FlagIf(h.soundFile.Some?, SOUND_FILE)
         | FlagIf(h.suppressSound != 0, SUPPRESS_SOUND) | FlagIf(placed, XY))
  }

  lemma OrFlags(f: bv8, on: bool, flag: bv8)
    ensures f | FlagIf(on, flag) == if on then f | flag else f
    ensures 0 | f == f
  {}

  /** Flags gathered one hint after the other. */
  lemma GatheredFlags(a: bool, b: bool, c: bool, d: bool, e: bool)
    ensures var f1 := if a then (0 as bv8) | URGENCY else 0;
            var f2 := if b then f1 | CATEGORY else f1;
            var f3 := if c then f2 | SOUND_FILE else f2;
            var f4 := if d then f3 | SUPPRESS_SOUND else f3;
            var f5 := if e then f4 | XY else f4;
            f5 == FlagIf(a, URGENCY) | FlagIf(b, CATEGORY) | FlagIf(c, SOUND_FILE) | FlagIf(d, SUPPRESS_SOUND)
                  | FlagIf(e, XY)
  {
    OrFlags(0, a, URGENCY);
    var f1 := FlagIf(a, URGENCY);
    OrFlags(f1, b, CATEGORY);
    var f2 := f1 | FlagIf(b, CATEGORY);
    OrFlags(f2, c, SOUND_FILE);
    var f3 := f2 | FlagIf(c, SOUND_FILE);
    OrFlags(f3, d, SUPPRESS_SOUND);
    OrFlags(f3 | FlagIf(d, SUPPRESS_SOUND), e, XY);
  }

  /** Reading a written notification gives back its strings, replaced id, timeout, actions,
      urgency, category, sound, suppressed sound and the sent part of its image, and its
      position when both coordinates are positive; nothing else arrives. */
  lemma RoundTrip(n: Note)
    requires NoteSendable(n)
    ensures AllTyped(Marshalled(n).hints) && Unmarshalled(Marshalled(n)) == Arrived(n)
  {
    ActionsRoundTrip(n.actions);
    var h := n.hints;
    var n0 := NEW_NOTE.(appName := Some(Text(n.appName)), replacesId := n.replacesId, appIcon := Some(Text(n.appIcon)),
                        summary := Some(Text(n.summary)), body := Some(Text(n.body)), actions := n.actions);
    ReadHints(n0, h);
    GatheredFlags(h.urgency != 0, h.category.Some?, h.soundFile.Some?, h.suppressSound != 0, h.x > 0 && h.y > 0);
    var r := Unmarshalled(Marshalled(n));
    assert r.flags == Arrived(n).flags;
    assert r.hints == Arrived(n).hints;
  }

  // ----- what does not survive

  /** What the receiver reads. */
  function Received(n: Note): (r: Note)
    requires NoteSendable(n)
    ensures r == Arrived(n)
  {
    RoundTrip(n);
    Unmarshalled(Marshalled(n))
  }

  /** Setters never leave an urgency without its flag. */
  predicate UrgencyFlagged(n: Note) {
    n.flags & URGENCY == 0 ==> n.hints.urgency == 0
  }

  /** The urgency a receiver reads is the sender's except when the sender set it to low (0):
      that hint is not sent and reads as normal (1). */
  lemma UrgencySurvivesIff(n: Note)
    requires NoteSendable(n) && UrgencyFlagged(n)
    ensures UrgencyGet(Received(n)) == UrgencyGet(n) <==> !(n.flags & URGENCY != 0 && n.hints.urgency == 0)
  {
    var h := n.hints;
    UrgencyBit(FlagIf(h.category.Some?, CATEGORY), FlagIf(h.soundFile.Some?, SOUND_FILE),
               FlagIf(h.suppressSound != 0, SUPPRESS_SOUND), FlagIf(h.x > 0 && h.y > 0, XY), h.urgency != 0);
  }

  lemma UrgencyBit(c: bv8, s: bv8, p: bv8, x: bv8, on: bool)
    requires c in {0, CATEGORY} && s in {0, SOUND_FILE} && p in {0, SUPPRESS_SOUND} && x in {0, XY}
    ensures (FlagIf(on, URGENCY) | c | s | p | x) & URGENCY != 0 <==> on
    ensures (FlagIf(on, URGENCY) | c | s | p | x) & XY != 0 <==> x != 0
  {}

  /** None of the flags transient, resident and action icons is sent. Sharing their bits with
      others, a note arrives as transient exactly when its sound is suppressed and as resident
      exactly when its position was sent; image data, which shares the third bit, arrives
      without its flag. */
  lemma SharedFlagsOnArrival(n: Note)
    requires NoteSendable(n)
    ensures Received(n).flags & TRANSIENT != 0 <==> n.hints.suppressSound != 0
    ensures Received(n).flags & RESIDENT != 0 <==> n.hints.x > 0 && n.hints.y > 0
    ensures Received(n).flags & ACTION_ICONS == 0 && IMAGE_DATA == ACTION_ICONS
  {
    var h := n.hints;
    SharedBits(FlagIf(h.urgency != 0, URGENCY), FlagIf(h.category.Some?, CATEGORY),
               FlagIf(h.soundFile.Some?, SOUND_FILE), h.suppressSound != 0, h.x > 0 && h.y > 0);
  }

  lemma SharedBits(u: bv8, c: bv8, s: bv8, suppressed: bool, placed: bool)
    requires u in {0, URGENCY} && c in {0, CATEGORY} && s in {0, SOUND_FILE}
    ensures var f := u | c | s | FlagIf(suppressed, SUPPRESS_SOUND) | FlagIf(placed, XY);
            (f & TRANSIENT != 0 <==> suppressed) && (f & RESIDENT != 0 <==> placed) && f & ACTION_ICONS == 0
  {}

  /** A position survives exactly when both its coordinates are positive; a position on the
      left or upper edge of the screen is lost. */
  lemma PositionSurvivesIff(n: Note)
    requires NoteSendable(n) && PositionGet(n).Some?
    ensures PositionGet(Received(n)) == PositionGet(n) <==> n.hints.x > 0 && n.hints.y > 0
  {
    var h := n.hints;
    UrgencyBit(FlagIf(h.category.Some?, CATEGORY), FlagIf(h.soundFile.Some?, SOUND_FILE),
               FlagIf(h.suppressSound != 0, SUPPRESS_SOUND), FlagIf(h.x > 0 && h.y > 0, XY), h.urgency != 0);
  }

  /** The desktop entry is written under a key the reader does not know. */
  lemma DesktopSurvivesIff(n: Note)
    requires NoteSendable(n)
    ensures Received(n).hints.desktop == n.hints.desktop <==> n.hints.desktop.None?
  {}

  /** A list of strings is the writing of the actions read from it exactly when it is even. */
  lemma {:induction false} StringsRoundTripIff(strings: seq<string>)
    ensures Flatten(Pairs(strings)) == strings <==> |strings| % 2 == 0
    ensures |Flatten(Pairs(strings))| == |strings| - |strings| % 2
    decreases |strings|
  {
    if |strings| >= 2 {
      StringsRoundTripIff(strings[2..]);
      var a := Action(strings[0], strings[1]);
      FlatCons(a, Pairs(strings[2..]));
      assert strings == [a.id, a.name] + strings[2..];
      assert Flatten(Pairs(strings))[2..] == Flatten(Pairs(strings[2..]));
    }
  }

  lemma {:induction false} FlatCons(a: Action, rest: seq<Action>)
    ensures Flatten([a] + rest) == [a.id, a.name] + Flatten(rest)
  {
    if rest == [] {
      assert [a] + rest == [a] && [a][..0] == [];
    } else {
      assert ([a] + rest)[..|rest|] == [a] + rest[..|rest| - 1];
      FlatCons(a, rest[..|rest| - 1]);
    }
  }

  // ----- the reader and the writer

  /** E_Notification, as far as the wire is concerned. */
  class Notification {
    var appName: Option<string>
    var replacesId: int
    var appIcon: Option<string>
    var summary: Option<string>
    var body: Option<string>
    var timeout: int
    var actions: seq<Action>
    var hints: Hints
    var flags: bv8

    function Value(): Note
      reads this
    {
      Note(appName, replacesId, appIcon, summary, body, timeout, actions, hints, flags)
    }

    constructor ()
      ensures Value() == NEW_NOTE
    {
      appName, replacesId, appIcon, summary, body := None, 0, None, None, None;
      timeout, actions, hints, flags := 0, [], NO_HINTS, 0;
    }

    /** e_notify_marshal_notify. */
    method Marshal() returns (c: Call)
      requires NoteSendable(Value())
      modifies this
      ensures Value() == Filled(old(Value()))
      ensures appName == Some(if old(appName).Some? then old(appName).value else "")
      ensures appIcon == Some(if old(appIcon).Some? then old(appIcon).value else "")
      ensures summary == Some(if old(summary).Some? then old(summary).value else "")
      ensures body == Some(if old(body).Some? then old(body).value else "")
      ensures c == Marshalled(old(Value()))
    {
      if appName.None? { appName := Some(""); }
      if appIcon.None? { appIcon := Some(""); }
      if summary.None? { summary := Some(""); }
      if body.None? { body := Some(""); }
      var strings := [];
      for i := 0 to |actions|
        invariant strings == Flatten(actions[..i]) && Value() == Filled(old(Value()))
      {
        assert actions[..i + 1][..i] == actions[..i];
        strings := strings + [actions[i].id, actions[i].name];
      }
      assert actions[..|actions|] == actions;
      var written := MarshalHints(hints);
      c := Call(appName.value, replacesId, appIcon.value, summary.value, body.value, strings, written, timeout);
    }

    /** One hint of the dictionary: the chain of key comparisons and the setter it ends in. */
    method ReadHint(h: Hint, x: Option<int>, y: Option<int>) returns (x': Option<int>, y': Option<int>)
      requires Typed(h)
      modifies this
      ensures Progress(Value(), x', y') == ApplyHint(Progress(old(Value()), x, y), h)
    {
      x', y' := x, y;
      match KeyOf(h.key) {
        case KUrgency => hints, flags := hints.(urgency := h.value.b), flags | URGENCY;
        case KCategory => hints, flags := hints.(category := Some(h.value.s)), flags | CATEGORY;
        case KDesktop => hints, flags := hints.(desktop := Some(h.value.s)), flags | DESKTOP;
        case KImagePath => hints := hints.(imagePath := Some(h.value.s));
        case KImageData => hints := hints.(imageData := ImageIn(h.value));
        case KSoundFile => hints, flags := hints.(soundFile := Some(h.value.s)), flags | SOUND_FILE;
        case KSuppressSound => hints, flags := hints.(suppressSound := LowByte(h.value)), flags | SUPPRESS_SOUND;
        case KTransient => flags := if h.value.t then flags | TRANSIENT else flags ^ TRANSIENT;
        case KResident => flags := if h.value.t then flags | RESIDENT else flags ^ RESIDENT;
        case KX => x' := Some(h.value.i);
        case KY => y' := Some(h.value.i);
        case KIconData => hints := hints.(iconData := ImageIn(h.value));
        case KUnknown =>
      }
    }

    /** e_notify_unmarshal_notify_hints. */
    method ReadHints(hs: seq<Hint>)
      requires AllTyped(hs)
      modifies this
      ensures Value() == Finish(Fold(Progress(old(Value()), None, None), hs))
    {
      var x, y := None, None;
      for i := 0 to |hs|
        invariant AllTyped(hs[i..])
        invariant Fold(Progress(Value(), x, y), hs[i..]) == Fold(Progress(old(Value()), None, None), hs)
      {
        assert hs[i..][1..] == hs[i + 1..];
        x, y := ReadHint(hs[i], x, y);
      }
      if x.Some? && y.Some? {
        hints, flags := hints.(x := x.value, y := y.value), flags | XY;
      }
    }
  }

  method DictString(hs: seq<Hint>, key: string, s: Option<string>) returns (hs': seq<Hint>)
    ensures hs' == hs + StringHint(key, s)
  {
    hs' := hs;
    if s.Some? {
      hs' := hs + [Hint(key, VString(s.value))];
    }
  }

  method DictByte(hs: seq<Hint>, key: string, b: bv8) returns (hs': seq<Hint>)
    ensures hs' == hs + ByteHint(key, b)
  {
    hs' := hs;
    if b != 0 {
      hs' := hs + [Hint(key, VByte(b))];
    }
  }

  method DictInt(hs: seq<Hint>, key: string, i: int) returns (hs': seq<Hint>)
    ensures hs' == hs + IntHint(key, i)
  {
    hs' := hs;
    if i != 0 {
      hs' := hs + [Hint(key, VInt(i))];
    }
  }

  method DictImage(hs: seq<Hint>, image: Option<WireImage>) returns (hs': seq<Hint>)
    requires image.Some? ==> Sendable(image.value)
    ensures hs' == hs + ImageHint(image)
  {
    hs' := hs;
    if image.Some? {
      hs' := hs + [Hint("image-data", VImage(Cut(image.value)))];
    }
  }

  method DictPosition(hs: seq<Hint>, x: int, y: int) returns (hs': seq<Hint>)
    ensures hs' == hs + PositionHints(x, y)
  {
    hs' := hs;
    if x > -1 && y > -1 {
      hs' := DictInt(hs', "x", x);
      hs' := DictInt(hs', "y", y);
      assert hs' == hs + (IntHint("x", x) + IntHint("y", y));
    }
  }

  /** The hints in the order they are appended to the dictionary. */
  method MarshalHints(h: Hints) returns (hs: seq<Hint>)
    requires h.imageData.Some? ==> Sendable(h.imageData.value)
    ensures hs == HintsOf(h)
  {
    hs := DictByte([], "urgency", h.urgency);
    assert hs == ByteHint("urgency", h.urgency);
    hs := DictString(hs, "category", h.category);
    hs := DictString(hs, "desktop_entry", h.desktop);
    hs := DictImage(hs, h.imageData);
    hs := DictString(hs, "sound-file", h.soundFile);
    hs := DictByte(hs, "suppress-sound", h.suppressSound);
    hs := DictPosition(hs, h.x, h.y);
  }

  /** e_notify_unmarshal_notify_actions: the loop runs while a string follows the current one. */
  method ReadActions(strings: seq<string>) returns (actions: seq<Action>)
    ensures actions == Pairs(strings)
  {
    actions := [];
    var at := 0;
    while at + 1 < |strings|
      invariant at <= |strings|
      invariant actions + Pairs(strings[at..]) == Pairs(strings)
    {
      assert strings[at..][2..] == strings[at + 2..];
      actions := actions + [Action(strings[at], strings[at + 1])];
      at := at + 2;
    }
    assert Pairs(strings[at..]) == [];
  }

  /** e_notify_unmarshal_notify. */
  method Unmarshal(c: Call) returns (n: Notification)
    requires AllTyped(c.hints)
    ensures fresh(n) && n.Value() == Unmarshalled(c)
  {
    n := new Notification();
    n.appName := Some(c.appName);
    n.replacesId := c.replacesId;
    n.appIcon := Some(c.appIcon);
    n.summary := Some(c.summary);
    n.body := Some(c.body);
    n.actions := ReadActions(c.actions);
    n.ReadHints(c.hints);
    n.timeout := c.timeout;
  }

  /** A notification sent and read: the receiver's differs from the sender's as Arrived says. */
  method Transfer(n: Notification) returns (r: Notification)
    requires NoteSendable(n.Value())
    modifies n
    ensures fresh(r) && r.Value() == Arrived(old(n.Value()))
  {
    ghost var sent := n.Value();
    RoundTrip(sent);
    var c := n.Marshal();
    r := Unmarshal(c);
  }

  /** An image made from an object of w by h pixels is sent whole. */
  lemma ObjectImageIsWhole(w: nat, h: nat, data: seq<bv8>)
    requires |data| == 4 * w * h
    ensures var image := WireImage(w, h, 4 * w, true, 8, 4, data);
            Sendable(image) && Cut(image) == image
  {
    NotifyImage.InitLength(w, h);
    assert data[..|data|] == data;
  }
}
