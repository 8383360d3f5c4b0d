/** The install tracker of `apps/PlayStore.tsx`: two id lists, the installed
    apps and the apps being processed, changed by the install and uninstall
    handlers and by the delayed callbacks they schedule, and the rules that
    enable and label each card's buttons. */
module PlayStore {
  import Seqs
  import opened Types

  /** `interface StoreApp` (rating, icon and description are left out: they
      are only displayed or searched). */
  datatype StoreApp = StoreApp(id: nat, name: string, category: string, appId: Option<AppId>)

  /** `FEATURED_APP`: a mock-up game with no application behind it. */
  const FeaturedApp: StoreApp := StoreApp(0, "Abyss Run", "Games", None)

  /** `STORE_APPS`: two of them launch system applications. */
  const StoreApps: seq<StoreApp> := [
    StoreApp(1, "Coral Paint", "Creativity", None),
    StoreApp(2, "Tidal Wave", "Music", None),
    StoreApp(3, "Sonar Social", "Social", None),
    StoreApp(4, "Kelp Keep", "Productivity", None),
    StoreApp(5, "Reef Maps", "Navigation", None),
    StoreApp(6, "Shark Fin", "Finance", None),
    StoreApp(7, "Plants vs Zombies", "Strategy", Some(PlantsVsZombies)),
    StoreApp(10, "Video Player", "Media", Some(VideoPlayer))
  ]

  /** The installed and processing lists, with the pending install timers
      (1.5 seconds) and uninstall timers (1 second), each oldest first. */
  datatype Tracker = Tracker(installed: seq<nat>, processing: seq<nat>, installing: seq<nat>, uninstalling: seq<nat>)

  /** Plants vs Zombies and the video player come pre-installed; nothing is
      being processed. */
  const InitialTracker: Tracker := Tracker([7, 10], [], [], [])

  /** handleInstall: the id is marked as processing and its install timer is
      scheduled. */
  function Install(t: Tracker, id: nat): Tracker {
    t.(processing := t.processing + [id], installing := t.installing + [id])
  }

  /** The oldest install timer firing: its id is appended to the installed
      list and every occurrence leaves the processing list. */
  function InstallDone(t: Tracker): Tracker
    requires t.installing != []
  {
    var id := t.installing[0];
    t.(installed := t.installed + [id], processing := Seqs.RemoveAll(t.processing, id),
       installing := t.installing[1..])
  }

  /** handleUninstall: the id is marked as processing and its uninstall timer
      is scheduled. */
  function Uninstall(t: Tracker, id: nat): Tracker {
    t.(processing := t.processing + [id], uninstalling := t.uninstalling + [id])
  }

  /** The oldest uninstall timer firing: every occurrence of its id leaves
      both lists. */
  function UninstallDone(t: Tracker): Tracker
    requires t.uninstalling != []
  {
    var id := t.uninstalling[0];
    t.(installed := Seqs.RemoveAll(t.installed, id), processing := Seqs.RemoveAll(t.processing, id),
       uninstalling := t.uninstalling[1..])
  }

  /** What the buttons keep: no id is listed twice, an id is processing
      exactly when one of its timers is pending, no id has two timers
      pending, an app being installed is not installed yet, and an app being
      uninstalled is still installed. */
  ghost predicate Consistent(t: Tracker) {
    Seqs.Distinct(t.installed) && Seqs.Distinct(t.processing) &&
    Seqs.Distinct(t.installing) && Seqs.Distinct(t.uninstalling) &&
    (forall x :: x in t.processing <==> x in t.installing || x in t.uninstalling) &&
    (forall x :: x in t.installing ==> x !in t.uninstalling && x !in t.installed) &&
    (forall x :: x in t.uninstalling ==> x in t.installed)
  }

  /** Installing an app that is neither installed nor processing keeps the
      tracker consistent. */
  lemma InstallKeeps(t: Tracker, id: nat)
    requires Consistent(t) && id !in t.processing && id !in t.installed
    ensures Consistent(Install(t, id))
  {
    Seqs.AppendDistinct(t.processing, id);
    Seqs.AppendDistinct(t.installing, id);
  }

  /** The install timer firing keeps it consistent: the app is now installed
      and no longer processing. */
  lemma InstallDoneKeeps(t: Tracker)
    requires Consistent(t) && t.installing != []
    ensures var r := InstallDone(t); var id := t.installing[0];
      Consistent(r) && id in r.installed && id !in r.processing
  {
    var id := t.installing[0];
    var r := InstallDone(t);
    Seqs.AppendDistinct(t.installed, id);
    Seqs.RemoveAllDistinct(t.processing, id);
    Seqs.TailDistinct(t.installing);
    assert forall x :: x in r.installing ==> x in t.installing && x != id;
    assert forall x :: x in t.installing && x != id ==> x in r.installing by {
      forall x | x in t.installing && x != id ensures x in r.installing {
        var k :| 0 <= k < |t.installing| && t.installing[k] == x;
        assert k != 0 && r.installing[k - 1] == x;
      }
    }
  }

  /** Uninstalling an installed app that is not processing keeps the
      tracker consistent. */
  lemma UninstallKeeps(t: Tracker, id: nat)
    requires Consistent(t) && id !in t.processing && id in t.installed
    ensures Consistent(Uninstall(t, id))
  {
    Seqs.AppendDistinct(t.processing, id);
    Seqs.AppendDistinct(t.uninstalling, id);
  }

  /** The uninstall timer firing keeps it consistent: the app is neither
      installed nor processing any more. */
  lemma UninstallDoneKeeps(t: Tracker)
    requires Consistent(t) && t.uninstalling != []
    ensures var r := UninstallDone(t); var id := t.uninstalling[0];
      Consistent(r) && id !in r.installed && id !in r.processing
  {
    var id := t.uninstalling[0];
    var r := UninstallDone(t);
    Seqs.RemoveAllDistinct(t.installed, id);
    Seqs.RemoveAllDistinct(t.processing, id);
    Seqs.TailDistinct(t.uninstalling);
    Seqs.RemoveAllIn(t.installed, id);
    Seqs.RemoveAllIn(t.processing, id);
    Seqs.TailIn(t.uninstalling);
  }

  /** With nothing else pending, installing an app and then uninstalling it
      gives the tracker back unchanged. */
  lemma InstallUninstallRoundTrip(t: Tracker, id: nat)
    requires Consistent(t) && t.installing == [] && t.uninstalling == [] && id !in t.installed
    ensures UninstallDone(Uninstall(InstallDone(Install(t, id)), id)) == t
  {
    assert forall x :: x !in t.processing;
    Seqs.RemoveAllAppend(t.installed, [id], id);
    assert Seqs.RemoveAll([id], id) == [];
  }

  /** With nothing else pending, uninstalling an app and installing it again
      moves it to the end of the installed list. */
  lemma UninstallInstallMovesToEnd(t: Tracker, id: nat)
    requires Consistent(t) && t.installing == [] && t.uninstalling == [] && id in t.installed
    ensures var r := InstallDone(Install(UninstallDone(Uninstall(t, id)), id));
      r.installed == Seqs.RemoveAll(t.installed, id) + [id] && r.processing == [] &&
      r.installing == [] && r.uninstalling == []
  {
    assert forall x :: x !in t.processing;
    assert Seqs.RemoveAll([id], id) == [];
  }

  /** handleOpen: the shell is asked to open the app's system application
      when it has one and the store was given the callback. */
  function OpenRequest(app: StoreApp, hasOnOpen: bool): (r: Option<AppId>)
    ensures r.Some? <==> app.appId.Some? && hasOnOpen
    ensures r.Some? ==> r == app.appId
  {
    if app.appId.Some? && hasOnOpen then app.appId else None
  }

  /** What the main button of a card does when clicked. */
  datatype MainAction = Disabled | InstallIt | OpenIt(target: AppId)

  /** The main button: disabled while processing or when an installed app
      has nothing to open; otherwise it opens an installed app and installs
      any other. */
  function MainButton(app: StoreApp, t: Tracker): (a: MainAction)
    ensures a == Disabled <==> app.id in t.processing || (app.id in t.installed && app.appId.None?)
    ensures a.InstallIt? <==> app.id !in t.processing && app.id !in t.installed
    ensures a.OpenIt? <==> app.id !in t.processing && app.id in t.installed && app.appId.Some?
    ensures a.OpenIt? ==> app.appId == Some(a.target)
  {
    var isInstalled := app.id in t.installed;
    var isProcessing := app.id in t.processing;
    if isProcessing || (isInstalled && app.appId.None?) then Disabled
    else if isInstalled then OpenIt(app.appId.value)
    else InstallIt
  }

  /** The uninstall button is shown for an installed app and enabled unless
      the app is processing. */
  function UninstallEnabled(app: StoreApp, t: Tracker): (e: bool)
    ensures e ==> app.id in t.installed
    ensures app.id in t.processing ==> !e
  {
    app.id in t.installed && app.id !in t.processing
  }

  /** The main button's label on a card. While the app is processing the
      label is "..." whether or not it is installed (the source spells out
      both cases, with the same text). */
  function CardLabel(app: StoreApp, t: Tracker): (s: string)
    ensures s == "..." <==> app.id in t.processing
    ensures s == "Open" <==> app.id !in t.processing && app.id in t.installed
    ensures s == "Install" <==> app.id !in t.processing && app.id !in t.installed
  {
    if app.id in t.processing then "..."
    else if app.id in t.installed then "Open" else "Install"
  }

  /** The main button's label on the featured card. */
  function FeaturedLabel(t: Tracker): (s: string)
    ensures s == "Processing..." <==> FeaturedApp.id in t.processing
    ensures s == "Open" <==> FeaturedApp.id !in t.processing && FeaturedApp.id in t.installed
    ensures s == "Install" <==> FeaturedApp.id !in t.processing && FeaturedApp.id !in t.installed
  {
    if FeaturedApp.id in t.processing then "Processing..."
    else if FeaturedApp.id in t.installed then "Open" else "Install"
  }

  /** A card's label announces what its enabled button does: "Install"
      exactly when it installs, "Open" whenever it opens, and an Open label on
      a disabled button only for an app with nothing to open. */
  lemma LabelMatchesButton(app: StoreApp, t: Tracker)
    ensures CardLabel(app, t) == "Install" <==> MainButton(app, t) == InstallIt
    ensures MainButton(app, t).OpenIt? ==> CardLabel(app, t) == "Open"
    ensures CardLabel(app, t) == "Open" && MainButton(app, t) == Disabled ==> app.appId.None?
    ensures CardLabel(app, t) == "..." ==> MainButton(app, t) == Disabled
  {
  }

  /** The featured game can be installed and uninstalled but never opened. */
  lemma FeaturedNeverOpens(t: Tracker)
    ensures !MainButton(FeaturedApp, t).OpenIt?
    ensures FeaturedApp.id in t.installed ==> MainButton(FeaturedApp, t) == Disabled
  {
  }

  /** Exactly the apps that launch something come pre-installed, and every
      catalogue id is different. */
  lemma CatalogueFacts()
    ensures forall k :: 0 <= k < |StoreApps| ==> (StoreApps[k].appId.Some? <==> StoreApps[k].id in InitialTracker.installed)
    ensures forall j, k :: 0 <= j < k < |StoreApps| ==> StoreApps[j].id != StoreApps[k].id
    ensures forall k :: 0 <= k < |StoreApps| ==> StoreApps[k].id != FeaturedApp.id
    ensures Consistent(InitialTracker)
  {
  }

  /** The store's state. */
  class Store {
    var installedApps: seq<nat>
    var processingApps: seq<nat>
    /** The pending install timers, oldest first (equal delays fire in order). */
    var installing: seq<nat>
    /** The pending uninstall timers, oldest first. */
    var uninstalling: seq<nat>

    function State(): Tracker
      reads this
    {
      Tracker(installedApps, processingApps, installing, uninstalling)
    }

    ghost predicate Valid()
      reads this
    {
      Consistent(State())
    }

    constructor ()
      ensures State() == InitialTracker && Valid()
    {
      installedApps, processingApps := [7, 10], [];
      installing, uninstalling := [], [];
    }

    /** handleInstall for `app`. */
    method HandleInstall(app: StoreApp)
      modifies this`processingApps, this`installing
      ensures State() == Install(old(State()), app.id)
    {
      processingApps := processingApps + [app.id];
      installing := installing + [app.id];
    }

    /** handleUninstall for the app with id `id`. */
    method HandleUninstall(id: nat)
      modifies this`processingApps, this`uninstalling
      ensures State() == Uninstall(old(State()), id)
    {
      processingApps := processingApps + [id];
      uninstalling := uninstalling + [id];
    }

    /** The oldest install timer firing. */
    method FireInstall()
      requires installing != []
      modifies this`installedApps, this`processingApps, this`installing
      ensures State() == InstallDone(old(State()))
      ensures old(Valid()) ==> Valid()
    {
      if Valid() {
        InstallDoneKeeps(State());
      }
      var id := installing[0];
      installedApps := installedApps + [id];
      processingApps := Seqs.RemoveAll(processingApps, id);
      installing := installing[1..];
    }

    /** The oldest uninstall timer firing. */
    method FireUninstall()
      requires uninstalling != []
      modifies this`installedApps, this`processingApps, this`uninstalling
      ensures State() == UninstallDone(old(State()))
      ensures old(Valid()) ==> Valid()
    {
      if Valid() {
        UninstallDoneKeeps(State());
      }
      var id := uninstalling[0];
      installedApps := Seqs.RemoveAll(installedApps, id);
      processingApps := Seqs.RemoveAll(processingApps, id);
      uninstalling := uninstalling[1..];
    }

    /** A click on a card's main button (or the featured one): a disabled
        button does nothing, an installed app is opened through the shell's
        callback when given, any other app is installed. */
    method ClickMain(app: StoreApp, hasOnOpen: bool) returns (launch: Option<AppId>)
      requires Valid()
      modifies this`processingApps, this`installing
      ensures Valid()
      ensures launch == if MainButton(app, old(State())).OpenIt? then OpenRequest(app, hasOnOpen) else None
      ensures State() == if MainButton(app, old(State())) == InstallIt then Install(old(State()), app.id) else old(State())
    {
      var action := MainButton(app, State());
      launch := None;
      if action == Disabled {
        return;
      }
      if app.id in installedApps {
        launch := OpenRequest(app, hasOnOpen);
      } else {
        InstallKeeps(State(), app.id);
        HandleInstall(app);
      }
    }

    /** A click on a card's uninstall button: ignored while the app is
        processing. */
    method ClickUninstall(app: StoreApp)
      requires Valid()
      modifies this`processingApps, this`uninstalling
      ensures Valid()
      ensures State() == if UninstallEnabled(app, old(State())) then Uninstall(old(State()), app.id) else old(State())
    {
      if UninstallEnabled(app, State()) {
        UninstallKeeps(State(), app.id);
        HandleUninstall(app.id);
      }
    }
  }
}
