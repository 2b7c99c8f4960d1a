/** The application shell: the active tab with its panel, and the intro dialog,
  * whose "do not show again" choice is remembered in the browser's key-value
  * store under `hasSeenIntro`. */
module App {
  import opened Seqs
  import Dashboard

  const IntroKey := "hasSeenIntro"
  const Seen := "true"

  /** `localStorage`: a map from keys to strings. */
  class KeyValueStore {
    var entries: map<string, string>

    constructor (initial: map<string, string>)
      ensures entries == initial
    {
      entries := initial;
    }

    /** `getItem`: the stored string, or None (`null`) for a missing key. */
    function GetItem(key: string): (v: Option<string>)
      reads this
      ensures v.Some? <==> key in entries
      ensures v.Some? ==> v.value == entries[key]
    {
      if key in entries then Some(entries[key]) else None
    }

    method SetItem(key: string, value: string)
      modifies this
      ensures entries == old(entries)[key := value]
    {
      entries := entries[key := value];
    }
  }

  /** Lines 19-21: the intro opens at startup unless the stored flag is exactly "true". */
  predicate IntroOpensAtStartup(stored: Option<string>)
    ensures stored.None? ==> IntroOpensAtStartup(stored)
  {
    stored != Some(Seen)
  }

  /** Lines 26-28: what closing the intro leaves in the store. */
  function StoreAfterClose(entries: map<string, string>, dontShowAgain: bool): (after: map<string, string>)
    ensures dontShowAgain ==> IntroKey in after && after[IntroKey] == Seen
    ensures !dontShowAgain ==> after == entries
    ensures forall k :: k != IntroKey ==> (k in after <==> k in entries)
    ensures forall k :: k != IntroKey && k in after ==> after[k] == entries[k]
  {
    if dontShowAgain then entries[IntroKey := Seen] else entries
  }

  function Lookup(entries: map<string, string>, key: string): Option<string>
  {
    if key in entries then Some(entries[key]) else None
  }

  /** A close with "do not show again" keeps the intro closed at every later startup;
    * a close without it leaves the next startup as it would have been. */
  lemma CloseDecidesNextStartup(entries: map<string, string>, dontShowAgain: bool)
    ensures dontShowAgain ==> !IntroOpensAtStartup(Lookup(StoreAfterClose(entries, dontShowAgain), IntroKey))
    ensures !dontShowAgain ==> IntroOpensAtStartup(Lookup(StoreAfterClose(entries, dontShowAgain), IntroKey)) ==
                               IntroOpensAtStartup(Lookup(entries, IntroKey))
  {
  }

  /** Closing twice with the same choice writes nothing new. */
  lemma StoreAfterCloseIdempotent(entries: map<string, string>, dontShowAgain: bool)
    ensures StoreAfterClose(StoreAfterClose(entries, dontShowAgain), dontShowAgain) == StoreAfterClose(entries, dontShowAgain)
  {
  }

  /** The panels; the dashboard records whether it was given the tab-change handler. */
  datatype Panel =
    | DashboardPanel(onTabChange: bool)
    | AcademicPanel
    | DormitoryPanel
    | MasukanPanel
    | SantriPanel
    | AlumniPanel
    | InventoryPanel

  /** The tab id each panel is selected by. */
  function TabId(p: Panel): string
  {
    match p
    case DashboardPanel(_) => "dashboard"
    case AcademicPanel => "academic"
    case DormitoryPanel => "dormitory"
    case MasukanPanel => "masukan"
    case SantriPanel => "santri"
    case AlumniPanel => "alumni"
    case InventoryPanel => "inventaris"
  }

  const KnownTabs: set<string> := {"dashboard", "academic", "dormitory", "masukan", "santri", "alumni", "inventaris"}

  /** Lines 32-51: the panel for a tab; an unknown id shows the dashboard, but
    * without the tab-change handler. */
  function RenderContent(tab: string): (p: Panel)
    ensures tab in KnownTabs <==> TabId(p) == tab
    ensures tab !in KnownTabs ==> p == DashboardPanel(false)
    ensures p.DashboardPanel? ==> (p.onTabChange <==> tab == "dashboard")
  {
    match tab
    case "dashboard" => DashboardPanel(true)
    case "academic" => AcademicPanel
    case "dormitory" => DormitoryPanel
    case "masukan" => MasukanPanel
    case "santri" => SantriPanel
    case "alumni" => AlumniPanel
    case "inventaris" => InventoryPanel
    case _ => DashboardPanel(false)
  }

  /** Every panel the navigation can select is reached by its own id. */
  lemma RenderContentInvertsTabId(p: Panel)
    requires p != DashboardPanel(false)
    ensures RenderContent(TabId(p)) == p
  {
  }

  /** The tab ids the navigation bar offers (masukan and alumni are commented out there). */
  const NavigationTabs := ["dashboard", "academic", "dormitory", "santri", "inventaris"]

  /** Every tab the navigation offers has its own panel, so the handler-less
    * dashboard of the default branch is not reached through the navigation. */
  lemma NavigationReachesOwnPanels(i: nat)
    requires i < |NavigationTabs|
    ensures TabId(RenderContent(NavigationTabs[i])) == NavigationTabs[i]
    ensures RenderContent(NavigationTabs[i]) != DashboardPanel(false)
  {
    assert NavigationTabs[i] in KnownTabs;
  }

  /** The shell's state: the tab, whether the intro is open, and its checkbox. */
  class Shell {
    var activeTab: string
    var showIntro: bool
    var dontShowAgain: bool

    /** Lines 14-16. */
    constructor ()
      ensures activeTab == "dashboard" && !showIntro && !dontShowAgain
    {
      activeTab := "dashboard";
      showIntro := false;
      dontShowAgain := false;
    }

    function Content(): Panel
      reads this
    {
      RenderContent(activeTab)
    }

    /** Lines 18-23, run once after the first render: the intro may open, it is never
      * closed here, and the store is only read. */
    method Mount(store: KeyValueStore)
      modifies this
      ensures showIntro == (old(showIntro) || IntroOpensAtStartup(store.GetItem(IntroKey)))
      ensures activeTab == old(activeTab) && dontShowAgain == old(dontShowAgain)
    {
      var hasSeenIntro := store.GetItem(IntroKey);
      if hasSeenIntro != Some(Seen) {
        showIntro := true;
      }
    }

    /** Lines 25-30: the intro closes, and the flag is written only with the checkbox set. */
    method CloseIntro(store: KeyValueStore)
      modifies this, store
      ensures !showIntro && activeTab == old(activeTab) && dontShowAgain == old(dontShowAgain)
      ensures store.entries == StoreAfterClose(old(store.entries), dontShowAgain)
    {
      if dontShowAgain {
        store.SetItem(IntroKey, Seen);
      }
      showIntro := false;
    }

    /** The intro's checkbox. */
    method SetDontShowAgain(value: bool)
      modifies this
      ensures dontShowAgain == value && showIntro == old(showIntro) && activeTab == old(activeTab)
    {
      dontShowAgain := value;
    }

    /** The navigation bar, or the dashboard's handler. */
    method SetActiveTab(tab: string)
      modifies this
      ensures activeTab == tab && showIntro == old(showIntro) && dontShowAgain == old(dontShowAgain)
    {
      activeTab := tab;
    }

    /** A click on the dashboard's santri card: with the handler it opens the santri
      * directory; the dashboard shown for an unknown tab has no handler, the click
      * fails (`handled` false) and nothing changes. */
    method ClickSantriCard() returns (handled: bool)
      requires Content().DashboardPanel?
      modifies this
      ensures handled <==> old(activeTab) == "dashboard"
      ensures handled ==> Content() == SantriPanel
      ensures !handled ==> activeTab == old(activeTab)
      ensures showIntro == old(showIntro) && dontShowAgain == old(dontShowAgain)
    {
      var request := Dashboard.SantriCardClick(Content().onTabChange);
      if request.Some? {
        SetActiveTab(request.value);
        handled := true;
      } else {
        handled := false;
      }
    }
  }

  /** From a fresh shell, startup followed by a close with the box ticked writes the
    * flag, and the next startup (a fresh shell on the same store) does not open the intro. */
  method StartupCloseRestart(store: KeyValueStore) returns (first: Shell, second: Shell)
    modifies store
    ensures fresh(first) && fresh(second)
    ensures first.dontShowAgain && !first.showIntro && !second.showIntro
    ensures store.entries == old(store.entries)[IntroKey := Seen]
  {
    first := new Shell();
    first.Mount(store);
    first.SetDontShowAgain(true);
    first.CloseIntro(store);
    second := new Shell();
    second.Mount(store);
  }
}
