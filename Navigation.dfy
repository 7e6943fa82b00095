/** The app's navigation decisions: which destination the root graph starts
    at, which route its root entry registers, and how destination routes are
    spelled.
 */
module Navigation {
  import opened Common

  /** Every destination the navigation graphs use. Only Root, FlagChange,
      Settings and Packages carry a declared route string. */
  datatype Destination =
    | Root | FlagChange | Settings | Packages
    | Welcome | LoadFile | RootRequest | NotificationRequest | AddFlagList
    | SettingsResetFlags | SettingsResetSaved | SettingsChangeNavigation | SettingsAbout

  predicate Declared(d: Destination)
  {
    d in {Root, FlagChange, Settings, Packages}
  }

  /** A declared destination's route: a single path segment. */
  function ScreenRoute(d: Destination): (r: string)
    requires Declared(d)
    ensures r != [] && '/' !in r
  {
    match d
    case Root => "root"
    case FlagChange => "{flagChange}"
    case Settings => "settings"
    case Packages => "packages"
  }

  datatype NavBarItem = Suggestions | Apps | Saved | History

  /** A bottom-bar tab's route, also a single path segment. */
  function NavBarRoute(item: NavBarItem): (r: string)
    ensures r != [] && '/' !in r
  {
    match item
    case Suggestions => "suggestions"
    case Apps => "apps"
    case Saved => "saved"
    case History => "history"
  }

  /** The bottom bar opens on the suggestions tab. */
  const BottomBarStartRoute: string := NavBarRoute(Suggestions)

  /** Distinct declared destinations have distinct routes, so a route names
      one destination. */
  lemma ScreenRoutesDistinct(d: Destination, e: Destination)
    requires Declared(d) && Declared(e) && d != e
    ensures ScreenRoute(d) != ScreenRoute(e)
  {
    assert ScreenRoute(d)[0] != ScreenRoute(e)[0];
  }

  /** The same for the bottom bar's tabs. */
  lemma NavBarRoutesDistinct(a: NavBarItem, b: NavBarItem)
    requires a != b
    ensures NavBarRoute(a) != NavBarRoute(b)
  {
    assert |NavBarRoute(a)| != |NavBarRoute(b)|;
  }

  lemma FixedRoutes()
    ensures ScreenRoute(Root) == "root" && ScreenRoute(Settings) == "settings"
    ensures ScreenRoute(Packages) == "packages"
    ensures BottomBarStartRoute == "suggestions"
  {
  }

  /** `createStringRoute(rootRoute)`: the destination's route under `rootRoute`. */
  function CreateStringRoute(d: Destination, rootRoute: string): (r: string)
    requires Declared(d)
    ensures |r| == |rootRoute| + 1 + |ScreenRoute(d)|
    ensures r[..|rootRoute|] == rootRoute && r[|rootRoute|] == '/'
    ensures r[|rootRoute| + 1..] == ScreenRoute(d)
  {
    rootRoute + "/" + ScreenRoute(d)
  }

  /** `FlagChange.createRoute`: the route that opens one package's flags,
      the Packages route followed by the package name as its own segment. */
  function CreateFlagChangeRoute(flagChange: string): (r: string)
    ensures var p := ScreenRoute(Packages);
            |r| == |p| + 1 + |flagChange| && r[..|p|] == p && r[|p|] == '/' && r[|p| + 1..] == flagChange
  {
    "packages/" + flagChange
  }

  /** The template the flag-change destination is registered under. */
  function FlagChangeTemplate(): (r: string)
    ensures r == "packages/{flagChange}"
  {
    CreateStringRoute(FlagChange, ScreenRoute(Packages))
  }

  /** A template whose last part is the placeholder `{arg}`, with the
      placeholder replaced by `value`; any other template is returned as is. */
  function FillTrailingArgument(template: string, arg: string, value: string): (r: string)
  {
    var placeholder := "{" + arg + "}";
    if |placeholder| <= |template| && template[|template| - |placeholder|..] == placeholder
    then template[..|template| - |placeholder|] + value
    else template
  }

  /** The argument a route carries for a template ending in `{arg}`: what
      follows the template's fixed prefix, when that is one non-empty path
      segment. */
  function ArgumentOf(template: string, arg: string, route: string): (r: Option<string>)
    ensures r.Some? ==> r.value != [] && '/' !in r.value
    ensures r.Some? ==> route == FillTrailingArgument(template, arg, r.value)
  {
    var placeholder := "{" + arg + "}";
    if |placeholder| <= |template| && template[|template| - |placeholder|..] == placeholder then
      var prefix := template[..|template| - |placeholder|];
      if |prefix| < |route| && route[..|prefix|] == prefix && '/' !in route[|prefix|..] then
        assert route == route[..|prefix|] + route[|prefix|..];
        Some(route[|prefix|..])
      else None
    else None
  }

  /** createRoute fills the registered template with the package name. */
  lemma CreateRouteFillsTemplate(flagChange: string)
    ensures CreateFlagChangeRoute(flagChange) == FillTrailingArgument(FlagChangeTemplate(), "flagChange", flagChange)
  {
    var t := FlagChangeTemplate();
    assert t[|t| - 12..] == "{flagChange}";
    assert t[..|t| - 12] == "packages/";
  }

  /** The flag-change screen reads back the package name the route was built
      from, as long as it is a single non-empty path segment. */
  lemma FlagChangeRouteRoundTrip(flagChange: string)
    requires flagChange != [] && '/' !in flagChange
    ensures ArgumentOf(FlagChangeTemplate(), "flagChange", CreateFlagChangeRoute(flagChange)) == Some(flagChange)
  {
    var t := FlagChangeTemplate();
    var route := CreateFlagChangeRoute(flagChange);
    assert t[|t| - 12..] == "{flagChange}";
    assert t[..|t| - 12] == "packages/";
    assert route[..9] == "packages/" && route[9..] == flagChange;
  }

  // ---------------------------------------------------------------------
  // The root graph
  // ---------------------------------------------------------------------

  const ActionView := "android.intent.action.VIEW"

  /** The part of an Intent the navigation looks at. */
  datatype Intent = Intent(action: Option<string>, mimeType: Option<string>)

  /** isLoadFileIntent: an XML file handed to the app to view. */
  function IsLoadFileIntent(intent: Option<Intent>): (b: bool)
    ensures intent.None? ==> !b
    ensures intent.Some? ==>
      (b <==> intent.value.action == Some(ActionView) && intent.value.mimeType == Some("application/xml"))
  {
    intent.Some? && intent.value.action == Some(ActionView) && intent.value.mimeType == Some("application/xml")
  }

  /** The NavHost's start destination. */
  function StartDestination(isFirstStart: bool, loadFlagIntent: Option<Intent>): (d: Destination)
    ensures d == Welcome <==> isFirstStart
    ensures d == LoadFile <==> !isFirstStart && IsLoadFileIntent(loadFlagIntent)
    ensures d == Root <==> !isFirstStart && !IsLoadFileIntent(loadFlagIntent)
  {
    if isFirstStart then Welcome
    else if IsLoadFileIntent(loadFlagIntent) then LoadFile
    else Root
  }

  /** The one route rootComposable registers. */
  function RootComposableRoute(isFirstStart: bool, loadFlagIntent: Option<Intent>): (d: Destination)
    ensures d == LoadFile || d == Root
    ensures d == LoadFile <==> !isFirstStart && IsLoadFileIntent(loadFlagIntent)
  {
    if !isFirstStart && IsLoadFileIntent(loadFlagIntent) then LoadFile else Root
  }

  /** Every destination the root NavHost registers: all but Packages, whose
      bare route no composable of the root graph registers (it is only the
      prefix of the flag-change template), and whichever of Root and
      LoadFile the root entry does not take. */
  function RegisteredDestinations(isFirstStart: bool, loadFlagIntent: Option<Intent>): (r: set<Destination>)
    ensures forall d :: d in r <==>
      d != Packages && (d == Root || d == LoadFile ==> d == RootComposableRoute(isFirstStart, loadFlagIntent))
  {
    {RootComposableRoute(isFirstStart, loadFlagIntent), Welcome, RootRequest, NotificationRequest,
     FlagChange, AddFlagList, Settings, SettingsResetFlags, SettingsResetSaved,
     SettingsChangeNavigation, SettingsAbout}
  }

  /** Past the first start, rootComposable registers the start destination. */
  lemma RootRouteIsStart(isFirstStart: bool, loadFlagIntent: Option<Intent>)
    requires !isFirstStart
    ensures RootComposableRoute(isFirstStart, loadFlagIntent) == StartDestination(isFirstStart, loadFlagIntent)
  {
  }

  /** The graph always contains its start destination. */
  lemma StartDestinationRegistered(isFirstStart: bool, loadFlagIntent: Option<Intent>)
    ensures StartDestination(isFirstStart, loadFlagIntent) in RegisteredDestinations(isFirstStart, loadFlagIntent)
  {
  }

  /** Exactly one of Root and LoadFile is registered, and LoadFile only when
      the graph starts there. */
  lemma RootAndLoadFileExclusive(isFirstStart: bool, loadFlagIntent: Option<Intent>)
    ensures var reg := RegisteredDestinations(isFirstStart, loadFlagIntent);
            (Root in reg) != (LoadFile in reg)
    ensures LoadFile in RegisteredDestinations(isFirstStart, loadFlagIntent) <==>
            StartDestination(isFirstStart, loadFlagIntent) == LoadFile
  {
  }
}
