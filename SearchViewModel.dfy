/** The search screens' view model: the installed-apps list with its search
    box and sort order, the GMS packages list with its own search box, and
    the package dialog.
 */
module Search {
  import opened Common

  /** An installed application; `lastUpdateTime` is None when the platform
      gave no package info. */
  datatype AppInfo = AppInfo(appName: string, packageName: string, lastUpdateTime: Option<int>)

  datatype SortType = PackageName | AppName | AppNameReversed | LastUpdate | Unrecognised

  /** The labels of the sort menu, as the view model's sortType map holds them. */
  const AppNameLabel := "By app name"
  const AppNameReversedLabel := "By app name (Reversed)"
  const LastUpdateLabel := "By last update"
  const PackageNameLabel := "By package name"

  /** Which branch of the sort `when` a selected sort label takes. */
  function SortOf(sortLabel: Option<string>): (t: SortType)
    ensures t == PackageName <==> sortLabel == Some(PackageNameLabel)
    ensures t == AppName <==> sortLabel == Some(AppNameLabel)
    ensures t == AppNameReversed <==> sortLabel == Some(AppNameReversedLabel)
    ensures t == LastUpdate <==> sortLabel == Some(LastUpdateLabel)
  {
    if sortLabel == Some(PackageNameLabel) then PackageName
    else if sortLabel == Some(AppNameLabel) then AppName
    else if sortLabel == Some(AppNameReversedLabel) then AppNameReversed
    else if sortLabel == Some(LastUpdateLabel) then LastUpdate
    else Unrecognised
  }

  /** The key of the last-update order: an app without package info counts as 0. */
  function UpdateKey(a: AppInfo): (t: int)
    ensures a.lastUpdateTime.None? ==> t == 0
    ensures a.lastUpdateTime.Some? ==> t == a.lastUpdateTime.value
  {
    if a.lastUpdateTime.Some? then a.lastUpdateTime.value else 0
  }

  /** `a` may stand before `b` in the order `sort` asks for: exactly when
      `b`'s key does not come strictly first. */
  predicate Precedes(sort: SortType, a: AppInfo, b: AppInfo)
    ensures sort == PackageName ==> (Precedes(sort, a, b) <==> !LexLess(b.packageName, a.packageName))
    ensures sort == AppName ==> (Precedes(sort, a, b) <==> !LexLess(b.appName, a.appName))
    ensures sort == AppNameReversed ==> (Precedes(sort, a, b) <==> !LexLess(a.appName, b.appName))
    ensures sort == LastUpdate ==> (Precedes(sort, a, b) <==> !(UpdateKey(a) < UpdateKey(b)))
    ensures sort == Unrecognised ==> Precedes(sort, a, b)
  {
    match sort
    case PackageName => LexLeNotGreater(a.packageName, b.packageName); LexLe(a.packageName, b.packageName)
    case AppName => LexLeNotGreater(a.appName, b.appName); LexLe(a.appName, b.appName)
    case AppNameReversed => LexLeNotGreater(b.appName, a.appName); LexLe(b.appName, a.appName)
    case LastUpdate => UpdateKey(b) <= UpdateKey(a)
    case Unrecognised => true
  }

  lemma PrecedesTotal(sort: SortType, a: AppInfo, b: AppInfo)
    ensures Precedes(sort, a, b) || Precedes(sort, b, a)
  {
    match sort
    case PackageName => LexLeTotal(a.packageName, b.packageName);
    case AppName => LexLeTotal(a.appName, b.appName);
    case AppNameReversed => LexLeTotal(a.appName, b.appName);
    case LastUpdate =>
    case Unrecognised =>
  }

  lemma PrecedesTransitive(sort: SortType, a: AppInfo, b: AppInfo, c: AppInfo)
    requires Precedes(sort, a, b) && Precedes(sort, b, c)
    ensures Precedes(sort, a, c)
  {
    match sort
    case PackageName => LexLeTransitive(a.packageName, b.packageName, c.packageName);
    case AppName => LexLeTransitive(a.appName, b.appName, c.appName);
    case AppNameReversed => LexLeTransitive(c.appName, b.appName, a.appName);
    case LastUpdate =>
    case Unrecognised =>
  }

  /** The descending app-name order is the ascending one read backwards. */
  lemma ReversedIsConverse(a: AppInfo, b: AppInfo)
    ensures Precedes(AppNameReversed, a, b) == Precedes(AppName, b, a)
  {
  }

  /** In the last-update order an app without package info goes after every
      app updated at a non-negative time, and ties with another such app. */
  lemma MissingUpdateSortsLast(a: AppInfo, b: AppInfo)
    requires b.lastUpdateTime.None?
    requires a.lastUpdateTime.Some? ==> a.lastUpdateTime.value >= 0
    ensures Precedes(LastUpdate, a, b)
    ensures a.lastUpdateTime.None? ==> Precedes(LastUpdate, b, a)
  {
  }

  predicate SortedBy(sort: SortType, s: seq<AppInfo>)
  {
    forall i, j :: 0 <= i < j < |s| ==> Precedes(sort, s[i], s[j])
  }

  /** `r` holds exactly the apps of `apps` whose name contains the query,
      each as often as there, and is `apps` itself when every app matches. */
  ghost predicate KeepsMatching(apps: seq<AppInfo>, query: string, r: seq<AppInfo>)
  {
    (forall a :: multiset(r)[a] == if ContainsIgnoreCase(a.appName, query) then multiset(apps)[a] else 0) &&
    ((forall i :: 0 <= i < |apps| ==> ContainsIgnoreCase(apps[i].appName, query)) ==> r == apps)
  }

  /** One step of the filter: keeping or dropping the head. */
  lemma KeepsMatchingStep(apps: seq<AppInfo>, query: string, rest: seq<AppInfo>)
    requires apps != [] && KeepsMatching(apps[1..], query, rest)
    ensures KeepsMatching(apps, query,
              (if ContainsIgnoreCase(apps[0].appName, query) then [apps[0]] else []) + rest)
  {
    assert apps == [apps[0]] + apps[1..];
    assert multiset(apps) == multiset{apps[0]} + multiset(apps[1..]);
  }

  /** The apps whose name contains the query, ignoring case, in list order. */
  function FilterApps(apps: seq<AppInfo>, query: string): (r: seq<AppInfo>)
    ensures forall a :: multiset(r)[a] == if ContainsIgnoreCase(a.appName, query) then multiset(apps)[a] else 0
    ensures (forall i :: 0 <= i < |apps| ==> ContainsIgnoreCase(apps[i].appName, query)) ==> r == apps
  {
    if apps == [] then []
    else
      var rest := FilterApps(apps[1..], query);
      KeepsMatchingStep(apps, query, rest);
      (if ContainsIgnoreCase(apps[0].appName, query) then [apps[0]] else []) + rest
  }

  /** The filter keeps list order: filtering a concatenation filters each
      part and concatenates the results. */
  lemma {:induction false} FilterAppsAppend(x: seq<AppInfo>, y: seq<AppInfo>, query: string)
    ensures FilterApps(x + y, query) == FilterApps(x, query) + FilterApps(y, query)
  {
    if x == [] {
      assert x + y == y;
    } else {
      assert (x + y)[0] == x[0] && (x + y)[1..] == x[1..] + y;
      FilterAppsAppend(x[1..], y, query);
    }
  }

  /** An app that may go before the first of a sorted list may go before all of it. */
  lemma SortedFront(sort: SortType, x: AppInfo, s: seq<AppInfo>)
    requires SortedBy(sort, s) && s != [] && Precedes(sort, x, s[0])
    ensures SortedBy(sort, [x] + s)
  {
    forall j | 0 <= j < |s| ensures Precedes(sort, x, s[j]) {
      if j > 0 { PrecedesTransitive(sort, x, s[0], s[j]); }
    }
    assert forall j :: 0 < j < |[x] + s| ==> ([x] + s)[j] == s[j - 1];
  }

  /** A head that may go before every app of a sorted list keeps it sorted. */
  lemma SortedCons(sort: SortType, h: AppInfo, rest: seq<AppInfo>, m: multiset<AppInfo>)
    requires SortedBy(sort, rest) && multiset(rest) == m
    requires forall a :: a in m ==> Precedes(sort, h, a)
    ensures SortedBy(sort, [h] + rest)
  {
    forall j | 0 <= j < |rest| ensures Precedes(sort, h, rest[j]) {
      assert rest[j] in multiset(rest);
    }
    assert forall j :: 0 < j < |[h] + rest| ==> ([h] + rest)[j] == rest[j - 1];
  }

  /** The head of a sorted list may go before the rest of it and before any
      app it may precede. */
  lemma HeadPrecedesRest(sort: SortType, x: AppInfo, s: seq<AppInfo>)
    requires SortedBy(sort, s) && s != [] && Precedes(sort, s[0], x)
    ensures forall a :: a in multiset(s[1..]) + multiset{x} ==> Precedes(sort, s[0], a)
  {
    forall a | a in multiset(s[1..]) + multiset{x} ensures Precedes(sort, s[0], a) {
      if a != x {
        var j :| 0 <= j < |s[1..]| && s[1..][j] == a;
        assert a == s[j + 1];
      }
    }
  }

  /** Puts `x` after every element that may precede it, before the first
      one that may not. */
  function Insert(sort: SortType, x: AppInfo, s: seq<AppInfo>): (r: seq<AppInfo>)
    requires SortedBy(sort, s)
    ensures multiset(r) == multiset(s) + multiset{x}
    ensures SortedBy(sort, r)
  {
    if s == [] then [x]
    else if !Precedes(sort, s[0], x) then
      PrecedesTotal(sort, s[0], x);
      SortedFront(sort, x, s);
      [x] + s
    else
      assert s == [s[0]] + s[1..];
      var rest := Insert(sort, x, s[1..]);
      HeadPrecedesRest(sort, x, s);
      SortedCons(sort, s[0], rest, multiset(s[1..]) + multiset{x});
      [s[0]] + rest
  }

  /** `a` and `b` have equal keys under `sort`. */
  predicate Tied(sort: SortType, a: AppInfo, b: AppInfo)
  {
    match sort
    case PackageName => a.packageName == b.packageName
    case AppName => a.appName == b.appName
    case AppNameReversed => a.appName == b.appName
    case LastUpdate => UpdateKey(a) == UpdateKey(b)
    case Unrecognised => true
  }

  /** Equal keys are exactly the pairs that may stand either way round. */
  lemma TiedIsMutualPrecedes(sort: SortType, a: AppInfo, b: AppInfo)
    ensures Tied(sort, a, b) <==> Precedes(sort, a, b) && Precedes(sort, b, a)
  {
    match sort
    case PackageName =>
      LexLeReflexive(a.packageName);
      if Precedes(sort, a, b) && Precedes(sort, b, a) { LexLeAntisymmetric(a.packageName, b.packageName); }
    case AppName =>
      LexLeReflexive(a.appName);
      if Precedes(sort, a, b) && Precedes(sort, b, a) { LexLeAntisymmetric(a.appName, b.appName); }
    case AppNameReversed =>
      LexLeReflexive(a.appName);
      if Precedes(sort, a, b) && Precedes(sort, b, a) { LexLeAntisymmetric(a.appName, b.appName); }
    case LastUpdate =>
    case Unrecognised =>
  }

  /** The apps of `s` whose key equals `k`'s, in list order. */
  function Ties(sort: SortType, k: AppInfo, s: seq<AppInfo>): seq<AppInfo>
  {
    if s == [] then []
    else (if Tied(sort, s[0], k) then [s[0]] else []) + Ties(sort, k, s[1..])
  }

  /** A list none of whose apps ties with `k` has no ties with it. */
  lemma {:induction false} TiesNone(sort: SortType, k: AppInfo, s: seq<AppInfo>)
    requires forall i :: 0 <= i < |s| ==> !Tied(sort, s[i], k)
    ensures Ties(sort, k, s) == []
  {
    if s != [] {
      TiesNone(sort, k, s[1..]);
    }
  }

  lemma {:induction false} TiesAppend(sort: SortType, k: AppInfo, x: seq<AppInfo>, y: seq<AppInfo>)
    ensures Ties(sort, k, x + y) == Ties(sort, k, x) + Ties(sort, k, y)
  {
    if x == [] {
      assert x + y == y;
    } else {
      assert (x + y)[0] == x[0] && (x + y)[1..] == x[1..] + y;
      TiesAppend(sort, k, x[1..], y);
    }
  }

  /** An app that goes strictly before the first of a sorted list ties with
      none of it. */
  lemma NoTiesAfterStrict(sort: SortType, k: AppInfo, x: AppInfo, t: seq<AppInfo>)
    requires SortedBy(sort, t) && t != [] && !Precedes(sort, t[0], x) && Tied(sort, x, k)
    ensures Ties(sort, k, t) == []
  {
    forall j | 0 <= j < |t| ensures !Tied(sort, t[j], k) {
      TiedIsMutualPrecedes(sort, t[j], k);
      TiedIsMutualPrecedes(sort, x, k);
      if Tied(sort, t[j], k) {
        PrecedesTransitive(sort, t[j], k, x);
        if j > 0 { PrecedesTransitive(sort, t[0], t[j], x); }
      }
    }
    TiesNone(sort, k, t);
  }

  lemma TiesSingle(sort: SortType, k: AppInfo, x: AppInfo)
    ensures Ties(sort, k, [x]) == if Tied(sort, x, k) then [x] else []
  {
    assert [x][1..] == [];
  }

  /** Insert's first case: `x` goes in front of the whole list. */
  lemma TiesInsertFront(sort: SortType, k: AppInfo, x: AppInfo, t: seq<AppInfo>)
    requires SortedBy(sort, t) && t != [] && !Precedes(sort, t[0], x)
    ensures Ties(sort, k, [x] + t) == Ties(sort, k, t) + Ties(sort, k, [x])
  {
    TiesSingle(sort, k, x);
    TiesAppend(sort, k, [x], t);
    if Tied(sort, x, k) {
      NoTiesAfterStrict(sort, k, x, t);
    }
  }

  /** Insert's second case: the head stays in front of the rest. */
  lemma TiesInsertBehind(sort: SortType, k: AppInfo, h: AppInfo, rest: seq<AppInfo>, t: seq<AppInfo>, x: AppInfo)
    requires Ties(sort, k, rest) == Ties(sort, k, t) + Ties(sort, k, [x])
    ensures Ties(sort, k, [h] + rest) == Ties(sort, k, [h] + t) + Ties(sort, k, [x])
  {
    TiesAppend(sort, k, [h], rest);
    TiesAppend(sort, k, [h], t);
  }

  /** Insert is stable: the new app goes after every app of equal key. */
  lemma {:induction false} InsertKeepsTies(sort: SortType, k: AppInfo, x: AppInfo, t: seq<AppInfo>)
    requires SortedBy(sort, t)
    ensures Ties(sort, k, Insert(sort, x, t)) == Ties(sort, k, t) + Ties(sort, k, [x])
  {
    if t == [] {
      TiesSingle(sort, k, x);
    } else if !Precedes(sort, t[0], x) {
      TiesInsertFront(sort, k, x, t);
    } else {
      InsertKeepsTies(sort, k, x, t[1..]);
      assert t == [t[0]] + t[1..];
      TiesInsertBehind(sort, k, t[0], Insert(sort, x, t[1..]), t[1..], x);
    }
  }

  /** sortedBy / sortedByDescending, by insertion of each app in turn. The
      sort is stable: apps of equal key keep their order. */
  function InsertionSort(sort: SortType, s: seq<AppInfo>): (r: seq<AppInfo>)
    ensures multiset(r) == multiset(s)
    ensures SortedBy(sort, r)
    ensures forall k :: Ties(sort, k, r) == Ties(sort, k, s)
  {
    if s == [] then []
    else
      var init := s[..|s| - 1];
      assert s == init + [s[|s| - 1]];
      var r := Insert(sort, s[|s| - 1], InsertionSort(sort, init));
      forall k ensures Ties(sort, k, r) == Ties(sort, k, s) {
        InsertKeepsTies(sort, k, s[|s| - 1], InsertionSort(sort, init));
        TiesAppend(sort, k, init, [s[|s| - 1]]);
      }
      r
  }

  /** The sort branch of getAllInstalledApps: a recognised order is applied,
      any other label keeps the filtered order. */
  function SortApps(sort: SortType, s: seq<AppInfo>): (r: seq<AppInfo>)
    ensures multiset(r) == multiset(s)
    ensures sort == Unrecognised ==> r == s
    ensures SortedBy(sort, r)
    ensures forall k :: Ties(sort, k, r) == Ties(sort, k, s)
  {
    if sort == Unrecognised then s else InsertionSort(sort, s)
  }

  /** The apps list on show: filtered by name, then sorted. */
  function AppsView(apps: seq<AppInfo>, query: string, sortLabel: Option<string>): (r: seq<AppInfo>)
    ensures multiset(r) == multiset(FilterApps(apps, query))
    ensures SortedBy(SortOf(sortLabel), r)
    ensures SortOf(sortLabel) == Unrecognised ==> r == FilterApps(apps, query)
    ensures forall k :: Ties(SortOf(sortLabel), k, r) == Ties(SortOf(sortLabel), k, FilterApps(apps, query))
  {
    SortApps(SortOf(sortLabel), FilterApps(apps, query))
  }

  /** With an empty query every app is shown: the view is a permutation of
      the whole list. */
  lemma AppsViewEmptyQuery(apps: seq<AppInfo>, sortLabel: Option<string>)
    ensures multiset(AppsView(apps, "", sortLabel)) == multiset(apps)
  {
    forall a ensures multiset(AppsView(apps, "", sortLabel))[a] == multiset(apps)[a] {
      EmptyQueryMatches(a.appName);
    }
  }

  /** The packages list on show: entries whose package name contains the
      query, ignoring case (toSortedMap orders them by key, see SortedKeys). */
  function PackagesView(packages: map<string, string>, query: string): (r: map<string, string>)
    ensures r.Keys <= packages.Keys
    ensures forall k :: k in r <==> k in packages && ContainsIgnoreCase(k, query)
    ensures forall k :: k in r ==> r[k] == packages[k]
  {
    FilterKeys(packages, query)
  }

  class SearchScreenViewModel {
    var appsListUiState: UiState<seq<AppInfo>>
    var dialogDataState: UiState<seq<string>>
    var dialogPackage: string
    var packagesListUiState: UiState<map<string, string>>

    var appsSearchQuery: string
    var appsListFiltered: seq<AppInfo>
    var packagesSearchQuery: string
    var packagesListFiltered: map<string, string>

    /** The label of the selected sort order. */
    var setSortType: Option<string>

    constructor ()
      ensures appsListUiState == Loading && dialogDataState == Loading && packagesListUiState == Loading
      ensures dialogPackage == "" && appsSearchQuery == "" && packagesSearchQuery == ""
      ensures appsListFiltered == [] && packagesListFiltered == map[]
      ensures setSortType == Some(AppNameLabel)
    {
      appsListUiState, dialogDataState, packagesListUiState := Loading, Loading, Loading;
      dialogPackage, appsSearchQuery, packagesSearchQuery := "", "", "";
      appsListFiltered, packagesListFiltered := [], map[];
      setSortType := Some(AppNameLabel);
    }

    method ClearSearchQuery()
      modifies this`appsSearchQuery, this`packagesSearchQuery
      ensures appsSearchQuery == "" && packagesSearchQuery == ""
    {
      appsSearchQuery := "";
      packagesSearchQuery := "";
    }

    method SetPackageToDialog(pkgName: string)
      modifies this`dialogPackage
      ensures dialogPackage == pkgName
    {
      dialogPackage := pkgName;
    }

    method SetEmptyList()
      modifies this`dialogDataState
      ensures dialogDataState == Success([])
    {
      dialogDataState := Success([]);
    }

    /** One emission of the package dialog's list: the dialog shows it as is. */
    method GetListByPackages(emitted: UiState<seq<string>>)
      modifies this`dialogDataState
      ensures dialogDataState == emitted
    {
      match emitted
      case Success(data) => dialogDataState := Success(data);
      case Loading => dialogDataState := Loading;
      case Error => dialogDataState := Error;
    }

    /** initGms drops the apps loaded before; the loads it starts arrive
        through InitAllInstalledApps and InitGmsPackagesList. */
    method InitGms()
      modifies this`appsListFiltered
      ensures appsListFiltered == []
    {
      appsListFiltered := [];
    }

    method GetAllInstalledApps()
      modifies this`appsListUiState
      ensures appsListFiltered == [] ==> appsListUiState == old(appsListUiState)
      ensures appsListFiltered != [] ==>
        appsListUiState == Success(AppsView(appsListFiltered, appsSearchQuery, setSortType))
    {
      if appsListFiltered != [] {
        appsListUiState := Success(AppsView(appsListFiltered, appsSearchQuery, setSortType));
      }
    }

    /** One emission of the installed-apps flow. */
    method InitAllInstalledApps(emitted: UiState<seq<AppInfo>>)
      modifies this`appsListFiltered, this`appsListUiState
      ensures emitted.Success? ==>
        appsListFiltered == old(appsListFiltered) + emitted.data &&
        (appsListFiltered == [] ==> appsListUiState == old(appsListUiState)) &&
        (appsListFiltered != [] ==>
          appsListUiState == Success(AppsView(appsListFiltered, appsSearchQuery, setSortType)))
      ensures !emitted.Success? ==>
        appsListFiltered == old(appsListFiltered) && appsListUiState == emitted
    {
      match emitted
      case Success(data) =>
        appsListFiltered := appsListFiltered + data;
        GetAllInstalledApps();
      case Loading => appsListUiState := Loading;
      case Error => appsListUiState := Error;
    }

    method GetGmsPackagesList()
      modifies this`packagesListUiState
      ensures packagesListFiltered == map[] ==> packagesListUiState == old(packagesListUiState)
      ensures packagesListFiltered != map[] ==>
        packagesListUiState == Success(PackagesView(packagesListFiltered, packagesSearchQuery))
    {
      if packagesListFiltered != map[] {
        packagesListUiState := Success(PackagesView(packagesListFiltered, packagesSearchQuery));
      }
    }

    /** One emission of the GMS packages flow. */
    method InitGmsPackagesList(emitted: UiState<map<string, string>>)
      modifies this`packagesListFiltered, this`packagesListUiState
      ensures emitted.Success? ==>
        packagesListFiltered == old(packagesListFiltered) + emitted.data &&
        (packagesListFiltered == map[] ==> packagesListUiState == old(packagesListUiState)) &&
        (packagesListFiltered != map[] ==>
          packagesListUiState == Success(PackagesView(packagesListFiltered, packagesSearchQuery)))
      ensures !emitted.Success? ==>
        packagesListFiltered == old(packagesListFiltered) && packagesListUiState == emitted
    {
      match emitted
      case Success(data) =>
        packagesListFiltered := packagesListFiltered + data;
        GetGmsPackagesList();
      case Loading => packagesListUiState := Loading;
      case Error => packagesListUiState := Error;
    }
  }
}
