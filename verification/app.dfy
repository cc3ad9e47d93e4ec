/**
  The application shell: the settings panel of the main app (six boolean
  switches persisted as JSON under one localStorage key, with the document's
  "dark" class following darkMode), the view router, the boot flag and logout.

  localStorage is a map; the "dark" class on the document element is a flag.
 */
module App {
  import opened Js

  // ---------------------------------------------------------------------------
  // The settings record
  // ---------------------------------------------------------------------------

  datatype Settings = Settings(
    darkMode: bool,
    notifications: bool,
    aiTools: bool,
    devMode: bool,
    performanceBoost: bool,
    compactLayout: bool)

  datatype SettingKey = DarkMode | Notifications | AiTools | DevMode | PerformanceBoost | CompactLayout

  const Defaults: Settings := Settings(true, true, true, false, true, false)

  const StorageKey: string := "vf_settings_v1"

  /** settings[key]. */
  function Get(s: Settings, k: SettingKey): (on: bool)
  {
    match k
    case DarkMode => s.darkMode
    case Notifications => s.notifications
    case AiTools => s.aiTools
    case DevMode => s.devMode
    case PerformanceBoost => s.performanceBoost
    case CompactLayout => s.compactLayout
  }

  /** With the defaults, every switch is on except developer mode and the
      compact layout. */
  lemma DefaultsOn(k: SettingKey)
    ensures Get(Defaults, k) <==> k != DevMode && k != CompactLayout
  {
  }

  /** Two records are equal when they agree on every key. */
  lemma SettingsExtensional(s: Settings, t: Settings)
    requires forall k :: Get(s, k) == Get(t, k)
    ensures s == t
  {
    assert Get(s, DarkMode) == Get(t, DarkMode);
    assert Get(s, Notifications) == Get(t, Notifications);
    assert Get(s, AiTools) == Get(t, AiTools);
    assert Get(s, DevMode) == Get(t, DevMode);
    assert Get(s, PerformanceBoost) == Get(t, PerformanceBoost);
    assert Get(s, CompactLayout) == Get(t, CompactLayout);
  }

  /** `{ ...prev, [key]: !prev[key] }`: key k negated, the other five kept. */
  function Toggle(s: Settings, k: SettingKey): (r: Settings)
    ensures Get(r, k) == !Get(s, k)
    ensures forall j :: j != k ==> Get(r, j) == Get(s, j)
  {
    Settings(
      if k == DarkMode then !s.darkMode else s.darkMode,
      if k == Notifications then !s.notifications else s.notifications,
      if k == AiTools then !s.aiTools else s.aiTools,
      if k == DevMode then !s.devMode else s.devMode,
      if k == PerformanceBoost then !s.performanceBoost else s.performanceBoost,
      if k == CompactLayout then !s.compactLayout else s.compactLayout)
  }

  /** Toggling the same switch twice restores the record. */
  lemma ToggleTwice(s: Settings, k: SettingKey)
    ensures Toggle(Toggle(s, k), k) == s
  {
    SettingsExtensional(Toggle(Toggle(s, k), k), s);
  }

  /** Toggles of two switches commute. */
  lemma ToggleCommutes(s: Settings, j: SettingKey, k: SettingKey)
    ensures Toggle(Toggle(s, j), k) == Toggle(Toggle(s, k), j)
  {
  }

  /** The switch's label, used in the toast "<label> toggled". */
  function Label(k: SettingKey): (title: string)
    ensures |title| > 0
  {
    match k
    case DarkMode => "Dark Mode"
    case Notifications => "Notifications"
    case AiTools => "AI Tools"
    case DevMode => "Developer Mode"
    case PerformanceBoost => "Performance Boost"
    case CompactLayout => "Compact Layout"
  }

  /** The six switches have six different labels, so the toast names the
      switch that was flipped. */
  lemma LabelsDistinct(k1: SettingKey, k2: SettingKey)
    ensures Label(k1) == Label(k2) ==> k1 == k2
  {
  }

  // ---------------------------------------------------------------------------
  // JSON text of a settings record
  // ---------------------------------------------------------------------------

  function BoolLiteral(b: bool): string
  {
    if b then "true" else "false"
  }

  /** `"name":true` or `"name":false`, followed by the separator. */
  function Field(name: string, b: bool, sep: string): string
  {
    "\"" + name + "\":" + BoolLiteral(b) + sep
  }

  /** The record's keys, in declaration order, and their JSON names. */
  const Keys: seq<SettingKey> := [DarkMode, Notifications, AiTools, DevMode, PerformanceBoost, CompactLayout]
  const Names: seq<string> := ["darkMode", "notifications", "aiTools", "devMode", "performanceBoost", "compactLayout"]

  function Values(s: Settings): (bs: seq<bool>)
    ensures |bs| == |Keys|
  {
    [s.darkMode, s.notifications, s.aiTools, s.devMode, s.performanceBoost, s.compactLayout]
  }

  /** The record whose values, in key order, are bs. */
  function FromValues(bs: seq<bool>): Settings
    requires |bs| == |Keys|
  {
    Settings(bs[0], bs[1], bs[2], bs[3], bs[4], bs[5])
  }

  /** Values and FromValues are inverse. */
  lemma ValuesRoundTrip(bs: seq<bool>, s: Settings)
    requires |bs| == |Keys|
    ensures Values(FromValues(bs)) == bs
    ensures FromValues(Values(s)) == s
  {
    assert Values(FromValues(bs))[..] == bs[..];
  }

  /** The members of a JSON object body: `"name":value` pairs separated by
      commas and closed by the brace. */
  function EncodeFields(names: seq<string>, bs: seq<bool>): (t: string)
    requires |names| == |bs| > 0
    decreases |bs|
  {
    if |bs| == 1 then Field(names[0], bs[0], "}")
    else Field(names[0], bs[0], ",") + EncodeFields(names[1..], bs[1..])
  }

  /** JSON.stringify(settings): the keys in declaration order, no spaces. */
  function Encode(s: Settings): (t: string)
  {
    "{" + EncodeFields(Names, Values(s))
  }

  /** The rest of t after the prefix p, if t starts with p. */
  function StripPrefix(t: string, p: string): (r: Option<string>)
    ensures r.Some? <==> |p| <= |t| && t[..|p|] == p
    ensures r.Some? ==> t == p + r.value
  {
    if |p| <= |t| && t[..|p|] == p then Some(t[|p|..]) else None
  }

  /** Stripping a prefix from p + rest gives rest back. */
  lemma StripConcat(p: string, rest: string)
    ensures StripPrefix(p + rest, p) == Some(rest)
  {
    assert (p + rest)[..|p|] == p;
    assert (p + rest)[|p|..] == rest;
  }

  /** Reads one `"name":<bool><sep>` field off the front of t. */
  function ReadField(t: string, name: string, sep: string): (r: Option<(bool, string)>)
    ensures r.Some? ==> t == Field(name, r.value.0, sep) + r.value.1
  {
    match StripPrefix(t, Field(name, true, sep))
    case Some(rest) => Some((true, rest))
    case None =>
      match StripPrefix(t, Field(name, false, sep))
      case Some(rest) => Some((false, rest))
      case None => None
  }

  /** A field followed by anything is read back as that field. */
  lemma ReadFieldConcat(name: string, b: bool, sep: string, rest: string)
    ensures ReadField(Field(name, b, sep) + rest, name, sep) == Some((b, rest))
  {
    var t := Field(name, b, sep) + rest;
    var pre := "\"" + name + "\":";
    assert Field(name, b, sep) == pre + BoolLiteral(b) + sep;
    if b {
      StripConcat(Field(name, true, sep), rest);
    } else {
      // the text after the key reads "false", so the "true" field does not match
      var tf := Field(name, true, sep);
      assert t[|pre|] == 'f';
      if |tf| <= |t| {
        assert tf[|pre|] == 't';
        assert t[..|tf|][|pre|] == 'f';
      }
      StripConcat(Field(name, false, sep), rest);
    }
  }

  /** Reads the members named `names`, in that order, up to the closing brace,
      which must end the text. */
  function DecodeFields(t: string, names: seq<string>): (r: Option<seq<bool>>)
    requires |names| > 0
    ensures r.Some? ==> |r.value| == |names| && t == EncodeFields(names, r.value)
    decreases |names|
  {
    if |names| == 1 then
      match ReadField(t, names[0], "}")
      case Some((b, rest)) => if rest == "" then Some([b]) else None
      case None => None
    else
      match ReadField(t, names[0], ",")
      case None => None
      case Some((b, rest)) =>
        match DecodeFields(rest, names[1..])
        case None => None
        case Some(bs) => assert ([b] + bs)[1..] == bs; Some([b] + bs)
  }

  /** The last member, closed by the brace, is read back. */
  lemma LastFieldRead(names: seq<string>, bs: seq<bool>)
    requires |names| == |bs| == 1
    ensures DecodeFields(EncodeFields(names, bs), names) == Some(bs)
  {
    ReadFieldConcat(names[0], bs[0], "}", "");
    assert Field(names[0], bs[0], "}") + "" == EncodeFields(names, bs);
    assert [bs[0]] == bs;
  }

  lemma {:induction false} DecodeEncodeFields(names: seq<string>, bs: seq<bool>)
    requires |names| == |bs| > 0
    ensures DecodeFields(EncodeFields(names, bs), names) == Some(bs)
    decreases |bs|
  {
    if |bs| == 1 {
      LastFieldRead(names, bs);
    } else {
      var rest := EncodeFields(names[1..], bs[1..]);
      assert EncodeFields(names, bs) == Field(names[0], bs[0], ",") + rest;
      ReadFieldConcat(names[0], bs[0], ",", rest);
      DecodeEncodeFields(names[1..], bs[1..]);
      assert [bs[0]] + bs[1..] == bs;
    }
  }

  /** JSON.parse restricted to the text Encode writes; None for any other text. */
  function Decode(t: string): (r: Option<Settings>)
    ensures r.Some? ==> t == Encode(r.value)
  {
    match StripPrefix(t, "{")
    case None => None
    case Some(body) =>
      match DecodeFields(body, Names)
      case None => None
      case Some(bs) => ValuesRoundTrip(bs, FromValues(bs)); Some(FromValues(bs))
  }

  /** What is written is read back: decoding an encoding gives the record. */
  lemma DecodeEncode(s: Settings)
    ensures Decode(Encode(s)) == Some(s)
  {
    StripConcat("{", EncodeFields(Names, Values(s)));
    DecodeEncodeFields(Names, Values(s));
    ValuesRoundTrip(Values(s), s);
  }

  /** The members' text ends with the object's closing brace. */
  lemma {:induction false} FieldsClosed(names: seq<string>, bs: seq<bool>)
    requires |names| == |bs| > 0
    ensures |EncodeFields(names, bs)| > 0
    ensures EncodeFields(names, bs)[|EncodeFields(names, bs)| - 1] == '}'
    decreases |bs|
  {
    if |bs| > 1 {
      FieldsClosed(names[1..], bs[1..]);
    }
  }

  /** JSON.stringify of the record is a JSON object: it opens and closes with a brace. */
  lemma EncodeIsObject(s: Settings)
    ensures |Encode(s)| >= 2 && Encode(s)[0] == '{' && Encode(s)[|Encode(s)| - 1] == '}'
  {
    FieldsClosed(Names, Values(s));
  }

  /** Different records are stored as different texts. */
  lemma EncodeInjective(s1: Settings, s2: Settings)
    ensures Encode(s1) == Encode(s2) ==> s1 == s2
  {
    DecodeEncode(s1);
    DecodeEncode(s2);
  }

  // ---------------------------------------------------------------------------
  // Loading and persisting
  // ---------------------------------------------------------------------------

  /** How the load effect ends: nothing stored (falsy), a record parsed, or
      JSON.parse throwing on text that is not a record's encoding. */
  datatype LoadResult = NothingStored | Loaded(settings: Settings) | Throws

  function Load(store: Store): (r: LoadResult)
    ensures r.NothingStored? <==> !Stored(store, StorageKey)
    ensures r.Loaded? <==> Stored(store, StorageKey) && Decode(store[StorageKey]).Some?
    ensures r.Loaded? ==> store[StorageKey] == Encode(r.settings)
  {
    if !Stored(store, StorageKey) then NothingStored
    else match Decode(store[StorageKey])
      case Some(s) => Loaded(s)
      case None => Throws
  }

  /** A store written by the persist effect loads back the same record. */
  lemma PersistThenLoad(store: Store, s: Settings)
    ensures Load(store[StorageKey := Encode(s)]) == Loaded(s)
  {
    DecodeEncode(s);
  }

  /** The settings panel of the main app, as a mounted component. */
  class SettingsPanel {
    var settings: Settings
    var store: Store
    /** The "dark" class on the document element. */
    var darkClass: bool
    /** The load effect threw, which takes the component down. */
    var loadFailed: bool

    /** Once mounted (and unless loading threw), the dark class follows
        darkMode and the store holds the current record's encoding. */
    ghost predicate Valid()
      reads this
    {
      !loadFailed ==>
        darkClass == settings.darkMode && StorageKey in store && store[StorageKey] == Encode(settings)
    }

    /** Mounting runs the load effect, then the dark-class and persist effects
        with whatever record is current once the load has applied. */
    constructor (store0: Store, dark0: bool)
      ensures Valid()
      ensures Load(store0).NothingStored? ==>
        settings == Defaults && !loadFailed && store == store0[StorageKey := Encode(Defaults)]
      ensures Load(store0).Loaded? ==>
        settings == Load(store0).settings && !loadFailed && store == store0
      ensures Load(store0).Throws? ==>
        loadFailed && settings == Defaults && store == store0 && darkClass == dark0
    {
      match Load(store0)
      case NothingStored =>
        settings := Defaults;
        darkClass := Defaults.darkMode;
        store := store0[StorageKey := Encode(Defaults)];
        loadFailed := false;
      case Loaded(s) =>
        // the persist effect writes back the text just read, which leaves
        // the store as it was
        settings := s;
        darkClass := s.darkMode;
        store := store0;
        loadFailed := false;
      case Throws =>
        settings := Defaults;
        darkClass := dark0;
        store := store0;
        loadFailed := true;
    }

    /** A checkbox change: that switch flips, the others stay, the class and
        the store follow, and the toast names the switch. */
    method ToggleSetting(k: SettingKey) returns (toast: string)
      requires Valid() && !loadFailed
      modifies this
      ensures Valid() && !loadFailed
      ensures settings == Toggle(old(settings), k)
      ensures darkClass == settings.darkMode
      ensures store == old(store)[StorageKey := Encode(settings)]
      ensures Load(store) == Loaded(settings)
      ensures toast == Label(k) + " toggled"
    {
      settings := Toggle(settings, k);
      darkClass := settings.darkMode;
      store := store[StorageKey := Encode(settings)];
      PersistThenLoad(old(store), settings);
      toast := Label(k) + " toggled";
    }
  }

  // ---------------------------------------------------------------------------
  // The app shell
  // ---------------------------------------------------------------------------

  datatype View = ChatAndScene | SettingsView | FactoryView | HomeView

  /** renderView: three named views, and the home view for everything else. */
  function RenderView(activeView: string): (v: View)
    ensures v == ChatAndScene <==> activeView == "chat"
    ensures v == SettingsView <==> activeView == "settings"
    ensures v == FactoryView <==> activeView == "factory"
    ensures v == HomeView <==> activeView !in {"chat", "settings", "factory"}
  {
    match activeView
    case "chat" => ChatAndScene
    case "settings" => SettingsView
    case "factory" => FactoryView
    case _ => HomeView
  }

  const BootDelay: nat := 2000
  const LogoutToast: string := "Session ended"

  class Shell {
    /** The id of the shown view: any id the sidebar or home view passes. */
    var activeView: string
    var isBooting: bool

    constructor ()
      ensures activeView == "home" && isBooting
    {
      activeView := "home";
      isBooting := true;
    }

    /** The boot timer (2000 ms after mount) fires. */
    method BootTimerFired()
      modifies this
      ensures !isBooting && activeView == old(activeView)
    {
      isBooting := false;
    }

    /** onViewChange / onNavigate. */
    method SetActiveView(v: string)
      modifies this
      ensures activeView == v && isBooting == old(isBooting)
    {
      activeView := v;
    }

    /** While booting the boot screen shows; afterwards the routed view. */
    function Screen(): (r: Option<View>)
      reads this
      ensures r.None? <==> isBooting
      ensures r.Some? ==> r.value == RenderView(activeView)
    {
      if isBooting then None else Some(RenderView(activeView))
    }

    /** Logging out shows a toast and changes no state. */
    method HandleLogout() returns (toast: string)
      ensures toast == LogoutToast
    {
      toast := LogoutToast;
    }
  }

}
