/**
 * The desktop's registry of installed applications
 * (src/contexts/InstalledAppsContext.tsx): the fixed catalogue, the
 * membership test, and the uninstall and reinstall updates that the
 * provider hands to its state setter. Each update is a function from the
 * current list to the next one.
 */
module InstalledApps {
  import opened Wrappers

  datatype AppId =
    | Minesweeper | Paint | Kiro | Browser | Notepad | Calculator
    | Charmap | SoundRecorder | DiskDefrag | SysMonitor | Doom

  datatype InstalledApp = InstalledApp(id: AppId, name: string, icon: string)

  /** The catalogue record of an app: its display name and icon. */
  function Entry(id: AppId): (app: InstalledApp)
    ensures app.id == id
  {
    match id
    case Minesweeper => InstalledApp(Minesweeper, "Bomb Sweeper", "\U{1F4A3}")
    case Paint => InstalledApp(Paint, "Draw", "\U{1F3A8}")
    case Kiro => InstalledApp(Kiro, "Kiro IDE", "\U{1F4BB}")
    case Browser => InstalledApp(Browser, "Web Finder", "\U{1F310}")
    case Notepad => InstalledApp(Notepad, "WordWrite", "\U{1F4DD}")
    case Calculator => InstalledApp(Calculator, "Calc", "\U{1F522}")
    case Charmap => InstalledApp(Charmap, "Symbol Viewer", "\U{1F524}")
    case SoundRecorder => InstalledApp(SoundRecorder, "Audio Capture", "\U{1F399}\U{FE0F}")
    case DiskDefrag => InstalledApp(DiskDefrag, "Disk Optimizer", "\U{1F4BE}")
    case SysMonitor => InstalledApp(SysMonitor, "Task Watcher", "\U{1F4CA}")
    case Doom => InstalledApp(Doom, "Gloom", "\U{1F479}")
  }

  /** ALL_APPS: the catalogue, in desktop order; it is also the initial installed list. */
  const ALL_APPS: seq<InstalledApp> := [
    Entry(Minesweeper), Entry(Paint), Entry(Kiro), Entry(Browser), Entry(Notepad), Entry(Calculator),
    Entry(Charmap), Entry(SoundRecorder), Entry(DiskDefrag), Entry(SysMonitor), Entry(Doom)
  ]

  /** The list the provider starts with. */
  const INITIAL_APPS: seq<InstalledApp> := ALL_APPS

  /** An entry of the catalogue is exactly the catalogue record of its own id. */
  predicate IsCatalogueEntry(app: InstalledApp) {
    app == Entry(app.id)
  }

  /** The catalogue in id order: its i-th record is the record of the i-th id. */
  lemma CatalogueOrder()
    ensures |ALL_APPS| == 11
    ensures ALL_APPS[0].id == Minesweeper && ALL_APPS[1].id == Paint && ALL_APPS[2].id == Kiro
    ensures ALL_APPS[3].id == Browser && ALL_APPS[4].id == Notepad && ALL_APPS[5].id == Calculator
    ensures ALL_APPS[6].id == Charmap && ALL_APPS[7].id == SoundRecorder && ALL_APPS[8].id == DiskDefrag
    ensures ALL_APPS[9].id == SysMonitor && ALL_APPS[10].id == Doom
    ensures forall i | 0 <= i < |ALL_APPS| :: IsCatalogueEntry(ALL_APPS[i])
  {
  }

  /** The catalogue names every id exactly once. */
  lemma CatalogueDistinct()
    ensures |ALL_APPS| == 11 && DistinctIds(ALL_APPS)
  {
    CatalogueOrder();
  }

  /** `a in ALL_APPS` means `a` is its own id's catalogue record. */
  lemma CatalogueEntries(app: InstalledApp)
    ensures app in ALL_APPS <==> IsCatalogueEntry(app)
  {
    CatalogueOrder();
    match app.id
    case Minesweeper => assert Entry(app.id) == ALL_APPS[0];
    case Paint => assert Entry(app.id) == ALL_APPS[1];
    case Kiro => assert Entry(app.id) == ALL_APPS[2];
    case Browser => assert Entry(app.id) == ALL_APPS[3];
    case Notepad => assert Entry(app.id) == ALL_APPS[4];
    case Calculator => assert Entry(app.id) == ALL_APPS[5];
    case Charmap => assert Entry(app.id) == ALL_APPS[6];
    case SoundRecorder => assert Entry(app.id) == ALL_APPS[7];
    case DiskDefrag => assert Entry(app.id) == ALL_APPS[8];
    case SysMonitor => assert Entry(app.id) == ALL_APPS[9];
    case Doom => assert Entry(app.id) == ALL_APPS[10];
  }

  /** A list of catalogue entries with no id twice. */
  predicate WellFormed(apps: seq<InstalledApp>) {
    && (forall i | 0 <= i < |apps| :: IsCatalogueEntry(apps[i]))
    && DistinctIds(apps)
  }

  /** No id occurs twice. */
  predicate DistinctIds(apps: seq<InstalledApp>) {
    forall i, j | 0 <= i < j < |apps| :: apps[i].id != apps[j].id
  }

  /** isAppInstalled: some entry of the list has the id. */
  function IsAppInstalled(apps: seq<InstalledApp>, id: AppId): (b: bool)
    ensures b <==> exists i :: 0 <= i < |apps| && apps[i].id == id
  {
    if |apps| == 0 then false
    else apps[0].id == id || (assert forall i | 0 <= i < |apps| - 1 :: apps[1..][i] == apps[i + 1]; IsAppInstalled(apps[1..], id))
  }

  /** uninstallApp: the list without the entries that have the id. */
  function UninstallApp(apps: seq<InstalledApp>, id: AppId): (r: seq<InstalledApp>)
    ensures |r| <= |apps|
    ensures forall a :: a in r <==> a in apps && a.id != id
  {
    if |apps| == 0 then []
    else if apps[0].id == id then UninstallApp(apps[1..], id)
    else [apps[0]] + UninstallApp(apps[1..], id)
  }

  /** Array.prototype.find on the catalogue: the first entry with the id. */
  function FindApp(catalogue: seq<InstalledApp>, id: AppId): (r: Option<InstalledApp>)
    ensures r.None? <==> forall i | 0 <= i < |catalogue| :: catalogue[i].id != id
    ensures r.Some? ==> r.value.id == id
    ensures r.Some? ==> exists k :: (0 <= k < |catalogue| && catalogue[k] == r.value && forall i | 0 <= i < k :: catalogue[i].id != id)
  {
    if |catalogue| == 0 then None
    else if catalogue[0].id == id then Some(catalogue[0])
    else
      var r := FindApp(catalogue[1..], id);
      assert r.Some? ==> exists k :: 0 <= k < |catalogue| - 1 && catalogue[1..][k] == r.value;
      r
  }

  /** reinstallApp: append the catalogue entry, unless the id is unknown or already installed. */
  function ReinstallApp(apps: seq<InstalledApp>, id: AppId): (r: seq<InstalledApp>)
  {
    var app := FindApp(ALL_APPS, id);
    if app.Some? && !IsAppInstalled(apps, id) then apps + [app.value] else apps
  }

  lemma DistinctCons(a: InstalledApp, rest: seq<InstalledApp>)
    ensures DistinctIds([a] + rest) <==> (forall b | b in rest :: b.id != a.id) && DistinctIds(rest)
  {
    var s := [a] + rest;
    if DistinctIds(s) {
      forall b | b in rest ensures b.id != a.id {
        var k :| 0 <= k < |rest| && rest[k] == b;
        assert s[0] == a && s[k + 1] == b;
      }
      forall i, j | 0 <= i < j < |rest| ensures rest[i].id != rest[j].id {
        assert s[i + 1] == rest[i] && s[j + 1] == rest[j];
      }
    }
    if (forall b | b in rest :: b.id != a.id) && DistinctIds(rest) {
      forall i, j | 0 <= i < j < |s| ensures s[i].id != s[j].id {
        assert s[j] == rest[j - 1];
        if i > 0 {
          assert s[i] == rest[i - 1];
        }
      }
    }
  }

  /**
   * The initial list is the whole catalogue: eleven entries with pairwise
   * distinct ids, well formed, and every app installed.
   */
  lemma InitialListWellFormed()
    ensures |INITIAL_APPS| == 11 && WellFormed(INITIAL_APPS)
    ensures forall id :: IsAppInstalled(INITIAL_APPS, id)
  {
    CatalogueOrder();
    CatalogueDistinct();
    forall id ensures IsAppInstalled(INITIAL_APPS, id) {
      CatalogueEntries(Entry(id));
      var k :| 0 <= k < |ALL_APPS| && ALL_APPS[k] == Entry(id);
    }
  }

  /** Reinstalling finds every id in the catalogue, and finds its record. */
  lemma CatalogueEntry(id: AppId)
    ensures FindApp(ALL_APPS, id) == Some(Entry(id))
  {
    CatalogueEntries(Entry(id));
    var k :| 0 <= k < |ALL_APPS| && ALL_APPS[k] == Entry(id);
    var r := FindApp(ALL_APPS, id);
    assert r.Some?;
    CatalogueEntries(r.value);
  }

  /**
   * uninstallApp removes the id and touches no other: afterwards the id is
   * not installed and every other id is installed exactly when it was.
   */
  lemma UninstallRemoves(apps: seq<InstalledApp>, id: AppId, other: AppId)
    ensures !IsAppInstalled(UninstallApp(apps, id), id)
    ensures other != id ==> IsAppInstalled(UninstallApp(apps, id), other) == IsAppInstalled(apps, other)
  {
    var r := UninstallApp(apps, id);
    if other != id && IsAppInstalled(apps, other) {
      var i :| 0 <= i < |apps| && apps[i].id == other;
      assert apps[i] in r;
    }
    if IsAppInstalled(r, other) {
      var i :| 0 <= i < |r| && r[i].id == other;
      assert r[i] in r;
    }
  }

  /** uninstallApp is a filter: it keeps the surviving entries in order. */
  lemma {:induction false} UninstallKeepsOrder(a: seq<InstalledApp>, b: seq<InstalledApp>, id: AppId)
    ensures UninstallApp(a + b, id) == UninstallApp(a, id) + UninstallApp(b, id)
    decreases |a|
  {
    if |a| == 0 {
      assert a + b == b;
    } else {
      assert (a + b)[0] == a[0];
      assert (a + b)[1..] == a[1..] + b;
      UninstallKeepsOrder(a[1..], b, id);
    }
  }

  /** A list without the id is left alone by uninstallApp. */
  lemma {:induction false} UninstallAbsent(apps: seq<InstalledApp>, id: AppId)
    requires !IsAppInstalled(apps, id)
    ensures UninstallApp(apps, id) == apps
    decreases |apps|
  {
    if |apps| > 0 {
      UninstallAbsent(apps[1..], id);
      assert apps == [apps[0]] + apps[1..];
    }
  }

  /** Uninstalling twice is uninstalling once. */
  lemma UninstallIdempotent(apps: seq<InstalledApp>, id: AppId)
    ensures UninstallApp(UninstallApp(apps, id), id) == UninstallApp(apps, id)
  {
    UninstallRemoves(apps, id, id);
    UninstallAbsent(UninstallApp(apps, id), id);
  }

  /**
   * reinstallApp: an installed id leaves the list unchanged; otherwise the
   * catalogue record for the id is appended. Either way the id is installed
   * afterwards.
   */
  lemma ReinstallEffect(apps: seq<InstalledApp>, id: AppId)
    ensures IsAppInstalled(apps, id) ==> ReinstallApp(apps, id) == apps
    ensures !IsAppInstalled(apps, id) ==> ReinstallApp(apps, id) == apps + [Entry(id)]
    ensures IsAppInstalled(ReinstallApp(apps, id), id)
  {
    CatalogueEntry(id);
    var r := ReinstallApp(apps, id);
    if !IsAppInstalled(apps, id) {
      assert r[|apps|].id == id;
    }
  }

  /** reinstallApp changes the status of no other id. */
  lemma ReinstallKeepsOthers(apps: seq<InstalledApp>, id: AppId, other: AppId)
    requires other != id
    ensures IsAppInstalled(ReinstallApp(apps, id), other) == IsAppInstalled(apps, other)
  {
    var r := ReinstallApp(apps, id);
    var app := FindApp(ALL_APPS, id);
    if app.Some? && !IsAppInstalled(apps, id) {
      AppendKeepsOthers(apps, app.value, other);
    }
  }

  /** Appending an entry with a different id changes nothing about other. */
  lemma AppendKeepsOthers(apps: seq<InstalledApp>, entry: InstalledApp, other: AppId)
    requires entry.id != other
    ensures IsAppInstalled(apps + [entry], other) == IsAppInstalled(apps, other)
  {
    var r := apps + [entry];
    if IsAppInstalled(r, other) {
      var i :| 0 <= i < |r| && r[i].id == other;
      assert i < |apps| && apps[i] == r[i];
    }
    if IsAppInstalled(apps, other) {
      var i :| 0 <= i < |apps| && apps[i].id == other;
      assert r[i] == apps[i];
    }
  }

  /** uninstallApp keeps the list a duplicate-free subset of the catalogue. */
  lemma {:induction false} UninstallPreservesWellFormed(apps: seq<InstalledApp>, id: AppId)
    requires WellFormed(apps)
    ensures WellFormed(UninstallApp(apps, id))
    decreases |apps|
  {
    var r := UninstallApp(apps, id);
    forall i | 0 <= i < |r| ensures IsCatalogueEntry(r[i]) {
      assert r[i] in r;
      var k :| 0 <= k < |apps| && apps[k] == r[i];
    }
    if |apps| > 0 {
      assert apps == [apps[0]] + apps[1..];
      DistinctCons(apps[0], apps[1..]);
      assert WellFormed(apps[1..]) by {
        forall i | 0 <= i < |apps[1..]| ensures IsCatalogueEntry(apps[1..][i]) {
          assert apps[1..][i] == apps[i + 1];
        }
      }
      UninstallPreservesWellFormed(apps[1..], id);
      if apps[0].id != id {
        DistinctCons(apps[0], UninstallApp(apps[1..], id));
      }
    }
  }

  /** reinstallApp keeps the list a duplicate-free subset of the catalogue. */
  lemma ReinstallPreservesWellFormed(apps: seq<InstalledApp>, id: AppId)
    requires WellFormed(apps)
    ensures WellFormed(ReinstallApp(apps, id))
  {
    ReinstallEffect(apps, id);
    var r := ReinstallApp(apps, id);
    if !IsAppInstalled(apps, id) {
      assert r == apps + [Entry(id)];
      forall i, j | 0 <= i < j < |r| ensures r[i].id != r[j].id {
        assert r[i] == apps[i];
        if j < |apps| {
          assert r[j] == apps[j];
        }
      }
    }
  }

  /**
   * Uninstalling and then reinstalling an app brings it back, as its
   * catalogue record at the end of the list, after the other apps in their
   * previous order.
   */
  lemma UninstallThenReinstall(apps: seq<InstalledApp>, id: AppId)
    ensures var r := ReinstallApp(UninstallApp(apps, id), id);
            && IsAppInstalled(r, id)
            && r == UninstallApp(apps, id) + [Entry(id)]
  {
    UninstallRemoves(apps, id, id);
    ReinstallEffect(UninstallApp(apps, id), id);
  }
}
