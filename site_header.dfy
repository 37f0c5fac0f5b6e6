/** The page title in the site header, looked up from the current path. */
module SiteHeader {
  /** The route-to-title table. */
  const ROUTE_TITLES: map<string, string> := map[
    "/" := "Problems",
    "/dashboard" := "Dashboard",
    "/explore" := "Explore",
    "/interview" := "Interview",
    "/analytics" := "Analytics",
    "/add-problem" := "Create Problem"]

  const DEFAULT_TITLE := "Problems"

  /** The title for a path: its table entry, "Problems" for any other path. */
  function PageTitle(pathname: string): (title: string)
    ensures pathname in ROUTE_TITLES ==> title == ROUTE_TITLES[pathname]
    ensures pathname !in ROUTE_TITLES ==> title == DEFAULT_TITLE
  {
    if pathname in ROUTE_TITLES && ROUTE_TITLES[pathname] != [] then ROUTE_TITLES[pathname] else DEFAULT_TITLE
  }

  /** Every path gets one of the six titles, and an unknown path is titled
      like the home page. */
  lemma TitleIsOneOfTheTable(pathname: string)
    ensures PageTitle(pathname) in ROUTE_TITLES.Values
    ensures pathname !in ROUTE_TITLES ==> PageTitle(pathname) == PageTitle("/")
  {
    assert ROUTE_TITLES["/"] == DEFAULT_TITLE;
  }

  /** The table itself. */
  lemma KnownRoutes()
    ensures PageTitle("/dashboard") == "Dashboard" && PageTitle("/explore") == "Explore"
    ensures PageTitle("/interview") == "Interview" && PageTitle("/analytics") == "Analytics"
    ensures PageTitle("/add-problem") == "Create Problem" && PageTitle("/") == "Problems"
  {
  }
}
