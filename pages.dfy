/**
 * The page controllers' logic (web/js/pages.js): the small display helpers,
 * the building occupancy tiers, the payments page's status filter, the
 * sign-in/sign-up page's state and the thirteen route registrations.
 */
module Pages {
  import opened Common
  import opened Query
  import opened Router
  import Auth
  import AuthHandlers
  import Utils

  // ---------------------------------------------------------------------
  // Display helpers
  // ---------------------------------------------------------------------

  const AvatarColors: seq<string> := ["blue", "teal", "purple", "orange"]

  /** `avatarColor(i)` for a row index i. */
  function AvatarColor(i: nat): (c: string)
    ensures c in AvatarColors
    ensures c == AvatarColors[i % 4]
  {
    AvatarColors[i % |AvatarColors|]
  }

  /** Rows four apart get the same colour; neighbouring rows never do. */
  lemma AvatarColorCycle(i: nat)
    ensures AvatarColor(i + 4) == AvatarColor(i)
    ensures AvatarColor(i + 1) != AvatarColor(i)
  {
  }

  /**
   * `b.total_units ? Math.round((b.occupied_units || 0) / b.total_units * 100) : 0`;
   * `None` is a missing field.
   */
  function BuildingOccupancy(occupied: Option<int>, total: Option<int>): (occ: int)
    ensures total.None? || total.value == 0 ==> occ == 0
    ensures total.Some? ==> occ == Utils.OccupancyPercent(occupied.GetOr(0), total.value)
  {
    if total.None? || total.value == 0 then 0
    else Utils.OccupancyPercent(occupied.GetOr(0), total.value)
  }

  /** A building whose occupied count lies within its total shows 0 to 100 percent. */
  lemma BuildingOccupancyBounds(occupied: Option<int>, total: Option<int>)
    requires total.Some? && 0 <= occupied.GetOr(0) <= total.value
    ensures 0 <= BuildingOccupancy(occupied, total) <= 100
  {
    Utils.OccupancyBounds(occupied.GetOr(0), total.value);
  }

  datatype Tier = Healthy | Fair | Low {
    function Label(): string {
      match this
      case Healthy => "Healthy"
      case Fair => "Fair"
      case Low => "Low"
    }
    /** The class of the status tag on the photo. */
    function TagClass(): string {
      match this
      case Healthy => "healthy"
      case Fair => "warning"
      case Low => "danger"
    }
    /** The colour of the progress bar. */
    function BarClass(): string {
      match this
      case Healthy => "green"
      case Fair => "blue"
      case Low => "red"
    }
    function Rank(): nat {
      match this
      case Healthy => 2
      case Fair => 1
      case Low => 0
    }
  }

  /** The three `occ >= 80 ? … : occ >= 50 ? … : …` choices share one tier. */
  function TierOf(occ: int): (t: Tier)
    ensures t == Healthy <==> occ >= 80
    ensures t == Fair <==> 50 <= occ < 80
    ensures t == Low <==> occ < 50
  {
    if occ >= 80 then Healthy else if occ >= 50 then Fair else Low
  }

  /** The card's status tag, its text and the progress bar's colour all follow the occupancy's tier. */
  lemma TierDisplay(occ: int)
    ensures TierOf(occ).TagClass() == (if occ >= 80 then "healthy" else if occ >= 50 then "warning" else "danger")
    ensures TierOf(occ).Label() == (if occ >= 80 then "Healthy" else if occ >= 50 then "Fair" else "Low")
    ensures TierOf(occ).BarClass() == (if occ >= 80 then "green" else if occ >= 50 then "blue" else "red")
  {
  }

  /** Different tiers look different in every one of the three places. */
  lemma TierDisplayDistinct(t1: Tier, t2: Tier)
    requires t1 != t2
    ensures t1.Label() != t2.Label() && t1.TagClass() != t2.TagClass() && t1.BarClass() != t2.BarClass()
  {
  }

  /** A fuller building never shows a lower tier. */
  lemma TierMonotone(occ1: int, occ2: int)
    requires occ1 <= occ2
    ensures TierOf(occ1).Rank() <= TierOf(occ2).Rank()
  {
  }

  /** An empty building and a full one sit at the two ends. */
  lemma TierEnds(total: int)
    requires total > 0
    ensures TierOf(BuildingOccupancy(Some(0), Some(total))) == Low
    ensures TierOf(BuildingOccupancy(Some(total), Some(total))) == Healthy
  {
    Utils.OccupancyEnds(total);
  }

  /** The maintenance table's description cell: 50 characters, then `...` if there was more. */
  function TruncateDescription(description: Option<string>): (r: string)
    ensures var d := description.GetOr("");
            (|d| <= 50 ==> r == d) &&
            (|d| > 50 ==> |r| == 53 && r[..50] == d[..50] && r[50..] == "...")
  {
    var d := description.GetOr("");
    Take(d, 50) + (if |d| > 50 then "..." else "")
  }

  /** The payments table's status text: anything other than `successful` or `pending` reads `Failed`. */
  function PaymentStatusLabel(status: string): (r: string)
    ensures r in {"Successful", "Pending", "Failed"}
    ensures r == "Successful" <==> status == "successful"
    ensures r == "Pending" <==> status == "pending"
  {
    if status == "successful" then "Successful" else if status == "pending" then "Pending" else "Failed"
  }

  /** The badge class next to that text. */
  function PaymentStatusClass(status: string): (r: string)
    ensures r == "badge-danger" <==> PaymentStatusLabel(status) == "Failed"
  {
    if status == "successful" then "badge-success" else if status == "pending" then "badge-warning" else "badge-danger"
  }

  /** `propert${count === 1 ? 'y' : 'ies'}`. */
  function PropertiesWord(count: int): (w: string)
    ensures w == "property" <==> count == 1
    ensures w == "properties" <==> count != 1
  {
    "propert" + (if count == 1 then "y" else "ies")
  }

  // ---------------------------------------------------------------------
  // Route registrations
  // ---------------------------------------------------------------------

  /** Which page controller a registered `init` starts. */
  datatype PageInit =
    | Landing | LoginForm | SignupForm | Dashboard | Buildings | BuildingDetail | Payments
    | Maintenance | Documents | TenantDashboard | PayRent | PaymentSuccess | Invite

  /** The thirteen `router.register` calls, in order. */
  function PageRoutes(): (routes: seq<Route<PageInit>>)
    ensures |routes| == 13
  {
    [ ("", Handler("landing", Some(Landing))),
      ("/login", Handler("auth", Some(LoginForm))),
      ("/signup", Handler("auth", Some(SignupForm))),
      ("/dashboard", Handler("app", Some(Dashboard))),
      ("/buildings", Handler("app", Some(Buildings))),
      ("/buildings/:id", Handler("app", Some(BuildingDetail))),
      ("/payments", Handler("app", Some(Payments))),
      ("/maintenance", Handler("app", Some(Maintenance))),
      ("/documents", Handler("app", Some(Documents))),
      ("/tenant", Handler("app", Some(TenantDashboard))),
      ("/pay-rent", Handler("app", Some(PayRent))),
      ("/payment-success", Handler("app", Some(PaymentSuccess))),
      ("/invite/:token", Handler("invite", Some(Invite))) ]
  }

  /** The `/`-segments of the thirteen patterns, in the same order. */
  const PatternSegments: seq<seq<string>> := [
    [""], ["", "login"], ["", "signup"], ["", "dashboard"], ["", "buildings"], ["", "buildings", ":id"],
    ["", "payments"], ["", "maintenance"], ["", "documents"], ["", "tenant"], ["", "pay-rent"],
    ["", "payment-success"], ["", "invite", ":token"] ]

  lemma PatternSplit(k: nat)
    requires k < 13
    ensures Split(PageRoutes()[k].0, '/') == PatternSegments[k]
    ensures |PatternSegments[k]| >= 2 ==> !IsParam(PatternSegments[k][1])
  {
    if k == 0 {
      assert Split("", '/') == [""];
    } else if k == 5 || k == 12 {
      ParamPatternSplit(k);
    } else {
      LiteralPatternSplit(k);
    }
  }

  lemma LiteralPatternSplit(k: nat)
    requires 1 <= k < 13 && k != 5 && k != 12
    ensures Split(PageRoutes()[k].0, '/') == PatternSegments[k]
    ensures |PatternSegments[k]| == 2 && PatternSegments[k][0] == "" && !IsParam(PatternSegments[k][1])
    ensures '?' !in PageRoutes()[k].0
  {
    if k <= 2 { AuthPatternsSplit(k); }
    else if k <= 4 { OverviewPatternsSplit(k); }
    else if k <= 7 { PaymentsPatternsSplit(k); }
    else if k <= 9 { DocumentsPatternsSplit(k); }
    else { RentPatternsSplit(k); }
  }

  lemma AuthPatternsSplit(k: nat)
    requires k == 1 || k == 2
    ensures Split(PageRoutes()[k].0, '/') == PatternSegments[k]
    ensures |PatternSegments[k]| == 2 && PatternSegments[k][0] == "" && !IsParam(PatternSegments[k][1])
    ensures '?' !in PageRoutes()[k].0
  {
    if k == 1 { LiteralAt(1, "login"); } else { LiteralAt(2, "signup"); }
  }

  lemma OverviewPatternsSplit(k: nat)
    requires k == 3 || k == 4
    ensures Split(PageRoutes()[k].0, '/') == PatternSegments[k]
    ensures |PatternSegments[k]| == 2 && PatternSegments[k][0] == "" && !IsParam(PatternSegments[k][1])
    ensures '?' !in PageRoutes()[k].0
  {
    if k == 3 { LiteralAt(3, "dashboard"); } else { LiteralAt(4, "buildings"); }
  }

  lemma PaymentsPatternsSplit(k: nat)
    requires k == 6 || k == 7
    ensures Split(PageRoutes()[k].0, '/') == PatternSegments[k]
    ensures |PatternSegments[k]| == 2 && PatternSegments[k][0] == "" && !IsParam(PatternSegments[k][1])
    ensures '?' !in PageRoutes()[k].0
  {
    if k == 6 { LiteralAt(6, "payments"); } else { LiteralAt(7, "maintenance"); }
  }

  lemma DocumentsPatternsSplit(k: nat)
    requires k == 8 || k == 9
    ensures Split(PageRoutes()[k].0, '/') == PatternSegments[k]
    ensures |PatternSegments[k]| == 2 && PatternSegments[k][0] == "" && !IsParam(PatternSegments[k][1])
    ensures '?' !in PageRoutes()[k].0
  {
    if k == 8 { LiteralAt(8, "documents"); } else { LiteralAt(9, "tenant"); }
  }

  lemma RentPatternsSplit(k: nat)
    requires k == 10 || k == 11
    ensures Split(PageRoutes()[k].0, '/') == PatternSegments[k]
    ensures |PatternSegments[k]| == 2 && PatternSegments[k][0] == "" && !IsParam(PatternSegments[k][1])
    ensures '?' !in PageRoutes()[k].0
  {
    if k == 10 { LiteralAt(10, "pay-rent"); } else { LiteralAt(11, "payment-success"); }
  }

  lemma ParamPatternSplit(k: nat)
    requires k == 5 || k == 12
    ensures Split(PageRoutes()[k].0, '/') == PatternSegments[k]
    ensures |PatternSegments[k]| == 3 && PatternSegments[k][0] == "" && !IsParam(PatternSegments[k][1])
    ensures IsParam(PatternSegments[k][2]) && '?' !in PatternSegments[k][1] && '/' !in PatternSegments[k][1]
  {
    if k == 5 { BuildingPatternSplit(); } else { InvitePatternSplit(); }
  }

  lemma BuildingPatternSplit()
    ensures Split(PageRoutes()[5].0, '/') == PatternSegments[5]
    ensures |PatternSegments[5]| == 3 && PatternSegments[5][0] == "" && !IsParam(PatternSegments[5][1])
    ensures IsParam(PatternSegments[5][2]) && '?' !in PatternSegments[5][1] && '/' !in PatternSegments[5][1]
  {
    ParamAt(5, "buildings", ":id");
  }

  lemma InvitePatternSplit()
    ensures Split(PageRoutes()[12].0, '/') == PatternSegments[12]
    ensures |PatternSegments[12]| == 3 && PatternSegments[12][0] == "" && !IsParam(PatternSegments[12][1])
    ensures IsParam(PatternSegments[12][2]) && '?' !in PatternSegments[12][1] && '/' !in PatternSegments[12][1]
  {
    ParamAt(12, "invite", ":token");
  }

  /** Pattern k is `/<word>`. */
  lemma LiteralAt(k: nat, word: string)
    requires k < 13 && PageRoutes()[k].0 == "/" + word && PatternSegments[k] == ["", word]
    requires '/' !in word && '?' !in word && !IsParam(word)
    ensures Split(PageRoutes()[k].0, '/') == PatternSegments[k]
    ensures '?' !in PageRoutes()[k].0
  {
    var p := PageRoutes()[k].0;
    assert p == "" + "/" + word;
    SplitTwo("", word, '/');
  }

  /** Pattern k is `/<word>/<param>`. */
  lemma ParamAt(k: nat, word: string, param: string)
    requires k < 13 && PageRoutes()[k].0 == "/" + word + "/" + param && PatternSegments[k] == ["", word, param]
    requires '/' !in word && '?' !in word && !IsParam(word) && '/' !in param && IsParam(param)
    ensures Split(PageRoutes()[k].0, '/') == PatternSegments[k]
  {
    var p := PageRoutes()[k].0;
    assert p == "" + "/" + word + "/" + param;
    SplitThree("", word, param, '/');
  }

  /** What tells the patterns apart: the segment count and the second segment (always literal). */
  function Key(segments: seq<string>): (nat, string) {
    (|segments|, if |segments| >= 2 then segments[1] else "")
  }

  lemma KeysDistinct(i: nat, j: nat)
    requires i < j < 13
    ensures Key(PatternSegments[i]) != Key(PatternSegments[j])
  {
  }

  /** A path that a pattern matches has that pattern's key. */
  lemma MatchKey(k: nat, path: string)
    requires k < 13 && RouteMatch(PageRoutes()[k].0, path).Some?
    ensures Key(Split(path, '/')) == Key(PatternSegments[k])
  {
    PatternSplit(k);
    var pp := Split(PageRoutes()[k].0, '/');
    var ps := Split(path, '/');
    assert SegmentsAgree(pp, ps);
    if |pp| >= 2 {
      assert pp[1] == ps[1];
    }
  }

  /** No path matches two registered patterns, so registration order never decides between them. */
  lemma RoutesDisjoint(i: nat, j: nat, path: string)
    requires i < j < 13
    requires RouteMatch(PageRoutes()[i].0, path).Some?
    ensures RouteMatch(PageRoutes()[j].0, path).None?
  {
    MatchKey(i, path);
    KeysDistinct(i, j);
    if RouteMatch(PageRoutes()[j].0, path).Some? {
      MatchKey(j, path);
    }
  }

  /** The thirteen patterns are distinct. */
  lemma PageRoutesDistinct()
    ensures DistinctPatterns(PageRoutes())
  {
    var r := PageRoutes();
    forall i, j | 0 <= i < j < |r|
      ensures r[i].0 != r[j].0
    {
      PatternSplit(i);
      PatternSplit(j);
      KeysDistinct(i, j);
    }
  }

  /** No pattern is an array-index key, so `Object.entries` tries the patterns in registration order. */
  lemma PageRoutesInOrder()
    ensures forall k :: 0 <= k < |PageRoutes()| ==> !IndexKey(PageRoutes()[k].0)
  {
    var r := PageRoutes();
    forall k | 0 <= k < |r| ensures !IndexKey(r[k].0) {
      assert r[k].0 == [] || r[k].0[0] == '/';
    }
  }

  /** The registrations at load time, in order: every pattern is new, so each goes last. */
  method RegisterPages(table: RouteTable<PageInit>)
    requires table.routes == []
    modifies table
    ensures table.routes == PageRoutes()
    ensures table.Valid()
  {
    var r := PageRoutes();
    PageRoutesDistinct();
    var n := 0;
    while n < |r|
      invariant 0 <= n <= |r|
      invariant table.routes == r[..n] && table.Valid()
    {
      RegisterFresh(r, n);
      table.Register(r[n].0, r[n].1);
      n := n + 1;
    }
    assert r[..n] == r;
  }

  /** The first match is the matching index all of whose predecessors miss. */
  lemma {:induction false} FirstMatchAt<H>(routes: seq<Route<H>>, path: string, k: nat)
    requires k < |routes| && RouteMatch(routes[k].0, path).Some?
    requires forall j :: 0 <= j < k ==> RouteMatch(routes[j].0, path).None?
    ensures FirstMatch(routes, path) == Some(k)
    decreases k
  {
    if k > 0 {
      assert forall j :: 0 <= j < k - 1 ==> routes[1..][j] == routes[j + 1];
      FirstMatchAt(routes[1..], path, k - 1);
    }
  }

  /** A path that pattern k matches is routed to pattern k. */
  lemma RoutedTo(k: nat, path: string)
    requires k < 13 && RouteMatch(PageRoutes()[k].0, path).Some?
    ensures FirstMatch(PageRoutes(), path) == Some(k)
  {
    forall j | 0 <= j < k
      ensures RouteMatch(PageRoutes()[j].0, path).None?
    {
      if RouteMatch(PageRoutes()[j].0, path).Some? {
        RoutesDisjoint(j, k, path);
      }
    }
    FirstMatchAt(PageRoutes(), path, k);
  }

  /** The empty hash opens the landing page with no parameters. */
  lemma LandingNavigation(authenticated: bool, role: string, initError: Option<string>)
    ensures NavigationOf(PageRoutes(), "", authenticated, role, initError) == Invoked(Landing, map[], initError)
  {
    assert RemoveFirst("", '#') == "";
    assert HashPath("") == "";
    assert HashQueryParams("") == map[];
    assert Split("", '/') == [""];
    assert Bindings([""], [""]) == [];
    assert RouteMatch("", "") == Some(map[]);
    RoutedTo(0, "");
  }

  /** A path no pattern matches falls back to `navigate('')`, which always reaches the landing page. */
  lemma FallbackReachesLanding(hash: string, role: string, initError: Option<string>)
    requires FirstMatch(PageRoutes(), HashPath(hash)).None?
    ensures NavigationOf(PageRoutes(), hash, false, role, initError) == Invoked(Landing, map[], initError)
  {
    LandingNavigation(false, role, initError);
  }

  /** The text after the leading `#`, when there is no `?` in it, is the path. */
  lemma HashPathOf(path: string)
    requires '?' !in path
    ensures HashPath("#" + path) == path
    ensures HashQueryParams("#" + path) == map[]
  {
    assert ("#" + path)[0] == '#';
    assert ("#" + path)[1..] == path;
    assert RemoveFirst("#" + path, '#') == path;
    SplitNoSep(path, '?');
  }

  /** A literal pattern's own text opens its page with no parameters. */
  lemma LiteralNavigation(k: nat, authenticated: bool, role: string, initError: Option<string>)
    requires 1 <= k < 13 && k != 5 && k != 12
    ensures NavigationOf(PageRoutes(), "#" + PageRoutes()[k].0, authenticated, role, initError) ==
            Invoked(PageRoutes()[k].1.init.value, map[], initError)
  {
    LiteralRoute(k);
    InitPresent(k);
    NavigatesPlain(PageRoutes(), PageRoutes()[k].0, k, map[], authenticated, role, initError);
  }

  /** Every registration carries a page controller. */
  lemma InitPresent(k: nat)
    requires k < 13
    ensures PageRoutes()[k].1.init.Some?
  {
  }

  /** A literal pattern's own text is routed to it and binds nothing. */
  lemma LiteralRoute(k: nat)
    requires 1 <= k < 13 && k != 5 && k != 12
    ensures RouteMatch(PageRoutes()[k].0, PageRoutes()[k].0) == Some(map[])
    ensures FirstMatch(PageRoutes(), PageRoutes()[k].0) == Some(k)
    ensures '?' !in PageRoutes()[k].0
  {
    var p := PageRoutes()[k].0;
    var segs := PatternSegments[k];
    LiteralPatternSplit(k);
    assert !IsParam(segs[0]);
    SelfMatch(p, segs);
    RoutedTo(k, p);
  }

  /** A `?`-free path routed to pattern k runs k's handler with exactly the route's bindings. */
  lemma NavigatesPlain<H>(routes: seq<Route<H>>, path: string, k: nat, params: map<string, string>,
                          authenticated: bool, role: string, initError: Option<string>)
    requires '?' !in path && FirstMatch(routes, path) == Some(k) && routes[k].1.init.Some?
    requires RouteMatch(routes[k].0, path) == Some(params)
    ensures NavigationOf(routes, "#" + path, authenticated, role, initError) == Invoked(routes[k].1.init.value, params, initError)
  {
    var hash := "#" + path;
    HashPathOf(path);
    assert HashPath(hash) == path && HashQueryParams(hash) == map[];
    NavigatesToMatch(routes, hash, k, authenticated, role, initError);
    MergeNothing(params);
  }

  /** A pattern without parameters matches its own text, binding nothing. */
  lemma SelfMatch(p: string, segs: seq<string>)
    requires Split(p, '/') == segs
    requires forall i :: 0 <= i < |segs| ==> !IsParam(segs[i])
    ensures RouteMatch(p, p) == Some(map[])
  {
    NoParamBindings(segs, segs);
  }

  /** `#/login` and `#/signup` open the sign-in form in its two modes. */
  lemma AuthRoutes(authenticated: bool, role: string, initError: Option<string>)
    ensures NavigationOf(PageRoutes(), "#/login", authenticated, role, initError) == Invoked(LoginForm, map[], initError)
    ensures NavigationOf(PageRoutes(), "#/signup", authenticated, role, initError) == Invoked(SignupForm, map[], initError)
  {
    LiteralNavigation(1, authenticated, role, initError);
    LiteralNavigation(2, authenticated, role, initError);
  }

  /** `#/<word>/<value>` opens the page of the parameter pattern k, binding its parameter to the raw segment. */
  lemma ParamNavigation(k: nat, value: string, authenticated: bool, role: string, initError: Option<string>)
    requires k == 5 || k == 12
    requires '/' !in value && '?' !in value
    ensures var word := PatternSegments[k][1];
            var name := PatternSegments[k][2][1..];
            NavigationOf(PageRoutes(), "#/" + word + "/" + value, authenticated, role, initError) ==
            Invoked(PageRoutes()[k].1.init.value, map[name := value], initError)
  {
    var word := PatternSegments[k][1];
    var path := "/" + word + "/" + value;
    ParamRoute(k, value);
    NavigatesPlain(PageRoutes(), path, k, map[PatternSegments[k][2][1..] := value], authenticated, role, initError);
    HashOfPath(word, value);
  }

  lemma HashOfPath(word: string, value: string)
    ensures "#/" + word + "/" + value == "#" + ("/" + word + "/" + value)
  {
  }

  /** `/<word>/<value>` is routed to the parameter pattern k and binds its parameter to the value. */
  lemma ParamRoute(k: nat, value: string)
    requires k == 5 || k == 12
    requires '/' !in value && '?' !in value
    ensures var path := "/" + PatternSegments[k][1] + "/" + value;
            && RouteMatch(PageRoutes()[k].0, path) == Some(map[PatternSegments[k][2][1..] := value])
            && FirstMatch(PageRoutes(), path) == Some(k)
            && '?' !in path
  {
    ParamPatternSplit(k);
    ParamPathMatch(PageRoutes()[k].0, PatternSegments[k], value);
    RoutedTo(k, "/" + PatternSegments[k][1] + "/" + value);
  }

  /** A pattern `/<word>/:name` matches `/<word>/<value>` and binds `name` to the value. */
  lemma ParamPathMatch(p: string, segs: seq<string>, value: string)
    requires Split(p, '/') == segs && |segs| == 3 && segs[0] == "" && !IsParam(segs[1]) && IsParam(segs[2])
    requires '/' !in segs[1] && '/' !in value
    ensures RouteMatch(p, "/" + segs[1] + "/" + value) == Some(map[segs[2][1..] := value])
  {
    var path := "/" + segs[1] + "/" + value;
    assert path == segs[0] + "/" + segs[1] + "/" + value;
    SplitThree(segs[0], segs[1], value, '/');
    ParamMatch(p, path, segs, value);
  }

  /** A pattern `<a>/<b>/:name` matches `<a>/<b>/<value>`, binding `name` to the value. */
  lemma ParamMatch(p: string, path: string, segs: seq<string>, value: string)
    requires Split(p, '/') == segs && |segs| == 3 && !IsParam(segs[0]) && !IsParam(segs[1]) && IsParam(segs[2])
    requires Split(path, '/') == [segs[0], segs[1], value]
    ensures RouteMatch(p, path) == Some(map[segs[2][1..] := value])
  {
    var ps := [segs[0], segs[1], value];
    var name := segs[2][1..];
    assert SegmentsAgree(segs, ps);
    assert segs[..2] == ps[..2];
    NoParamBindings(segs[..2], ps[..2]);
    assert Bindings(segs, ps) == [] + [(name, value)];
    assert FromEntries([(name, value)]) == FromEntries([])[name := value];
  }

  lemma ParamPattern5()
    ensures PatternSegments[5][1] == "buildings" && PatternSegments[5][2][1..] == "id"
    ensures PageRoutes()[5].1.init.value == BuildingDetail
  {
  }

  /** `#/buildings/<id>` hands the raw segment to the building page as `id`. */
  lemma BuildingRoute(segment: string, authenticated: bool, role: string, initError: Option<string>)
    requires '/' !in segment && '?' !in segment
    ensures NavigationOf(PageRoutes(), "#/buildings/" + segment, authenticated, role, initError) ==
            Invoked(BuildingDetail, map["id" := segment], initError)
  {
    BuildingRouteParts(segment, authenticated, role, initError);
    BuildingHash(segment);
  }

  lemma BuildingHash(segment: string)
    ensures "#/" + "buildings" + "/" + segment == "#/buildings/" + segment
  {
  }

  lemma BuildingRouteParts(segment: string, authenticated: bool, role: string, initError: Option<string>)
    requires '/' !in segment && '?' !in segment
    ensures NavigationOf(PageRoutes(), "#/" + "buildings" + "/" + segment, authenticated, role, initError) ==
            Invoked(BuildingDetail, map["id" := segment], initError)
  {
    ParamPattern5();
    ParamNavigation(5, segment, authenticated, role, initError);
  }

  lemma ParamPattern12()
    ensures PatternSegments[12][1] == "invite" && PatternSegments[12][2][1..] == "token"
    ensures PageRoutes()[12].1.init.value == Invite
  {
  }

  /** `#/invite/<token>` hands the raw segment to the invitation page as `token`. */
  lemma InviteRoute(segment: string, authenticated: bool, role: string, initError: Option<string>)
    requires '/' !in segment && '?' !in segment
    ensures NavigationOf(PageRoutes(), "#/invite/" + segment, authenticated, role, initError) ==
            Invoked(Invite, map["token" := segment], initError)
  {
    InviteRouteParts(segment, authenticated, role, initError);
    InviteHash(segment);
  }

  lemma InviteHash(segment: string)
    ensures "#/" + "invite" + "/" + segment == "#/invite/" + segment
  {
  }

  lemma InviteRouteParts(segment: string, authenticated: bool, role: string, initError: Option<string>)
    requires '/' !in segment && '?' !in segment
    ensures NavigationOf(PageRoutes(), "#/" + "invite" + "/" + segment, authenticated, role, initError) ==
            Invoked(Invite, map["token" := segment], initError)
  {
    ParamPattern12();
    ParamNavigation(12, segment, authenticated, role, initError);
  }

  // ---------------------------------------------------------------------
  // Page state
  // ---------------------------------------------------------------------

  /** The page objects' mutable fields. */
  class PageState {
    /** `pages.auth.isSignup`. */
    var isSignup: bool
    /** `pages.auth.selectedRole`. */
    var selectedRole: string
    /** `pages.buildingDetail.buildingId`; `None` is `null`. */
    var buildingId: Option<string>
    /** `pages.payments.allPayments`. */
    var allPayments: seq<Json>

    constructor ()
      ensures !isSignup && selectedRole == "landlord" && buildingId.None? && allPayments == []
    {
      isSignup := false;
      selectedRole := "landlord";
      buildingId := None;
      allPayments := [];
    }

    /**
     * The field updates of the `init` closures registered in web/js/pages.js;
     * `params` is what `navigate` passes.  A missing parameter is `undefined`,
     * kept as `None` like the initial `null`.  `fetched` is what
     * `api.listPayments()` gives the payments page (`None` when it throws).
     */
    method RunInit(init: PageInit, params: map<string, string>, fetched: Option<seq<Json>>)
      modifies this
      ensures isSignup == (if init == LoginForm then false else if init == SignupForm then true else old(isSignup))
      ensures buildingId == (if init == BuildingDetail then (if "id" in params then Some(params["id"]) else None)
                             else old(buildingId))
      ensures allPayments == (if init == Payments && fetched.Some? then fetched.value else old(allPayments))
      ensures selectedRole == old(selectedRole)
    {
      match init
      case LoginForm => isSignup := false;
      case SignupForm => isSignup := true;
      case BuildingDetail => buildingId := if "id" in params then Some(params["id"]) else None;
      case Payments => LoadPayments(fetched);
      case _ =>
    }

    /** `selectRole(role)`. */
    method SelectRole(role: string)
      modifies this
      ensures selectedRole == role
      ensures isSignup == old(isSignup) && buildingId == old(buildingId) && allPayments == old(allPayments)
    {
      selectedRole := role;
    }

    /** The toggle link's `this.isSignup = !this.isSignup`. */
    method ToggleMode()
      modifies this
      ensures isSignup == !old(isSignup)
      ensures selectedRole == old(selectedRole) && buildingId == old(buildingId) && allPayments == old(allPayments)
    {
      isSignup := !isSignup;
    }

    /** `this.allPayments = await api.listPayments()`; `None` is a request that threw, leaving the cache. */
    method LoadPayments(fetched: Option<seq<Json>>)
      modifies this
      ensures allPayments == (if fetched.Some? then fetched.value else old(allPayments))
      ensures isSignup == old(isSignup) && selectedRole == old(selectedRole) && buildingId == old(buildingId)
    {
      if fetched.Some? {
        allPayments := fetched.value;
      }
    }

    /** `pages.payments.filter`: the cached payments with the chosen status, or all of them for `''`. */
    method FilterPayments(status: string) returns (shown: seq<Json>)
      ensures status == "" ==> shown == allPayments
      ensures status != "" ==> shown == Filter(allPayments, StatusIs(status))
      ensures status != "" ==> forall p :: p in shown <==> p in allPayments && Field(p, "status") == Some(JStr(status))
    {
      if status != "" {
        shown := Filter(allPayments, StatusIs(status));
      } else {
        shown := allPayments;
      }
    }
  }

  /** `p => p.status === status`. */
  function StatusIs(status: string): (Json -> bool) {
    p => Field(p, "status") == Some(JStr(status))
  }

  /** Filtering the filtered list by the same status changes nothing. */
  lemma FilterPaymentsIdempotent(payments: seq<Json>, status: string)
    ensures Filter(Filter(payments, StatusIs(status)), StatusIs(status)) == Filter(payments, StatusIs(status))
  {
    FilterFilter(payments, StatusIs(status), StatusIs(status), StatusIs(status));
  }

  /** Where the sign-in form sends a user after a request that succeeded. */
  function AfterSignIn(user: Option<Auth.User>): (h: string)
    ensures h == Auth.TenantHome <==> user.Some? && user.value.role == "tenant"
    ensures h != Auth.TenantHome ==> h == Auth.LandlordHome
  {
    if user.Some? && user.value.role == "tenant" then Auth.TenantHome else Auth.LandlordHome
  }

  /** The form and `redirectToDashboard` agree on the two real roles but split on any other. */
  lemma AfterSignInVersusDashboard(user: Auth.User)
    ensures user.role == "landlord" || user.role == "tenant" ==>
              AfterSignIn(Some(user)) == Auth.DashboardHash(user.role)
    ensures user.role != "landlord" && user.role != "tenant" ==>
              AfterSignIn(Some(user)) == Auth.LandlordHome && Auth.DashboardHash(user.role) == Auth.TenantHome
  {
  }

  // ---------------------------------------------------------------------
  // The bodies the sign-up and acceptance forms send
  // ---------------------------------------------------------------------

  /** The sign-up form's body as written: the name goes under `name`. */
  function SignupBody(email: string, password: string, name: string, role: string): (b: Json)
    ensures b.JObj? && "full_name" !in b.fields && "name" in b.fields && b.fields["name"] == JStr(name)
  {
    JObj(map["email" := JStr(email), "password" := JStr(password), "name" := JStr(name), "role" := JStr(role)])
  }

  /** As written, the server decodes no name from the form, so every sign-up gets the missing-field 400. */
  lemma SignupNameLost(email: string, password: string, name: string, role: string)
    ensures var req := AuthHandlers.DecodeSignup(SignupBody(email, password, name, role));
            && req.Some? && req.value.fullName == ""
            && AuthHandlers.SignupError(req.value) == Some("Email, password, full_name, and role are required")
  {
  }

  /** The sign-up body under the server's tag: the name goes under `full_name`. */
  function CorrectedSignupBody(email: string, password: string, name: string, role: string): (b: Json)
    ensures b.JObj? && "full_name" in b.fields && b.fields["full_name"] == JStr(name)
  {
    JObj(map["email" := JStr(email), "password" := JStr(password), "full_name" := JStr(name), "role" := JStr(role)])
  }

  /** With the server's tag the form's fields arrive intact, and a filled-in form for either role passes the checks. */
  lemma CorrectedSignupDecodes(email: string, password: string, name: string, role: string)
    ensures var req := AuthHandlers.DecodeSignup(CorrectedSignupBody(email, password, name, role));
            && req == Some(AuthHandlers.SignupRequest(email, password, name, role, ""))
            && (AuthHandlers.SignupError(req.value).None? <==>
                  email != "" && password != "" && name != "" && (role == "landlord" || role == "tenant"))
  {
  }

  /** The acceptance form's phone: `+234` before a non-empty number, "" otherwise. */
  function InvitePhone(phone: string): (p: string)
    ensures p == "" <==> phone == ""
  {
    if phone != "" then "+234" + phone else ""
  }

  /** The acceptance form's body as written: the name goes under `name`. */
  function AcceptBody(token: string, name: string, email: string, phone: string, password: string): (b: Json)
    ensures b.JObj? && "full_name" !in b.fields && "name" in b.fields && b.fields["name"] == JStr(name)
  {
    JObj(map["token" := JStr(token), "name" := JStr(name), "email" := JStr(email),
             "phone" := JStr(InvitePhone(phone)), "password" := JStr(password)])
  }

  /** As written, the server decodes no name, so every acceptance meets `AcceptInvite`'s missing-field 400. */
  lemma AcceptNameLost(token: string, name: string, email: string, phone: string, password: string)
    ensures var req := AuthHandlers.DecodeAcceptInvite(AcceptBody(token, name, email, phone, password));
            req.Some? && req.value.fullName == ""
  {
  }

  /** The acceptance body under the server's tag: the name goes under `full_name`. */
  function CorrectedAcceptBody(token: string, name: string, email: string, phone: string, password: string): (b: Json)
    ensures b.JObj? && "full_name" in b.fields && b.fields["full_name"] == JStr(name)
  {
    JObj(map["token" := JStr(token), "full_name" := JStr(name), "email" := JStr(email),
             "phone" := JStr(InvitePhone(phone)), "password" := JStr(password)])
  }

  /** With the server's tag every field of the acceptance form arrives as typed. */
  lemma CorrectedAcceptDecodes(token: string, name: string, email: string, phone: string, password: string)
    ensures AuthHandlers.DecodeAcceptInvite(CorrectedAcceptBody(token, name, email, phone, password)) ==
              Some(AuthHandlers.AcceptInviteRequest(token, name, email, password, InvitePhone(phone)))
  {
  }
}
