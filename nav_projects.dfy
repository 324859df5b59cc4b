/** The sidebar's management links and which of them is highlighted for the current path. */
module NavProjects {
  import opened Text

  datatype NavItem = NavItem(key: string, name: string, url: string)

  /** `items`, in sidebar order. */
  const Items: seq<NavItem> := [
    NavItem("dashboard", "Dashboard", "/app"),
    NavItem("habitaciones", "Habitaciones", "/app/habitaciones"),
    NavItem("inquilinos", "Inquilinos", "/app/inquilinos"),
    NavItem("contratos", "Contratos", "/app/contratos"),
    NavItem("pagos", "Pagos", "/app/pagos"),
    NavItem("recordatorios", "Recordatorios", "/app/recordatorios")
  ]

  const Dashboard := "/app"

  /** `isActive(url)` for the current `pathname`. */
  predicate IsActive(url: string, pathname: string)
  {
    if url == Dashboard then pathname == Dashboard
    else pathname == url || StartsWith(pathname, url + "/")
  }

  /** The dashboard is highlighted only on `/app` itself, not on the pages below it. */
  lemma DashboardExact(pathname: string)
    ensures IsActive(Dashboard, pathname) <==> pathname == "/app"
    ensures IsActive(Dashboard, "/app/pagos") == false
  {
  }

  /** Any other link is highlighted on its own path and on the paths below it. */
  lemma OtherItems(url: string, pathname: string, rest: string)
    requires url != Dashboard
    ensures IsActive(url, pathname) <==> pathname == url || StartsWith(pathname, url + "/")
    ensures IsActive(url, url + "/" + rest)
  {
    assert (url + "/" + rest)[..|url + "/"|] == url + "/";
  }

  /** A path that only shares a prefix of letters does not highlight the link. */
  lemma SiblingPathNotActive()
    ensures !IsActive("/app/habitaciones", "/app/habitacionesX")
  {
    var p, u := "/app/habitacionesX", "/app/habitaciones/";
    assert p[|u| - 1] != u[|u| - 1];
  }

  /** The urls below the dashboard, in sidebar order. */
  const Sections: seq<string> := ["/app/habitaciones", "/app/inquilinos", "/app/contratos", "/app/pagos", "/app/recordatorios"]

  /**
    For any path at most one link is highlighted: two distinct item urls are never the
    same path, and neither lies below the other.
  */
  lemma AtMostOneActive(pathname: string, i: int, j: int)
    requires 0 <= i < |Items| && 0 <= j < |Items|
    requires IsActive(Items[i].url, pathname) && IsActive(Items[j].url, pathname)
    ensures i == j
  {
    if i != 0 && j != 0 {
      assert Items[i].url == Sections[i - 1] && Items[j].url == Sections[j - 1];
      SegmentClash(Items[i].url, Items[j].url, pathname);
    }
  }

  /** A highlighted link's url is a prefix of the path. */
  lemma MatchedPrefix(url: string, pathname: string)
    requires pathname == url || StartsWith(pathname, url + "/")
    ensures |url| <= |pathname| && pathname[..|url|] == url
  {
    if pathname != url {
      assert pathname[..|url|] == (url + "/")[..|url|];
    }
  }

  /** Two different section urls cannot both match one path: they differ in their sixth character. */
  lemma SegmentClash(a: string, b: string, pathname: string)
    requires a in Sections && b in Sections
    requires pathname == a || StartsWith(pathname, a + "/")
    requires pathname == b || StartsWith(pathname, b + "/")
    ensures a == b
  {
    MatchedPrefix(a, pathname);
    MatchedPrefix(b, pathname);
    assert a[5] == pathname[..|a|][5] == pathname[5];
    assert b[5] == pathname[..|b|][5] == pathname[5];
  }
}
