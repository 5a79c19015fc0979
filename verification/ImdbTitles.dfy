/** Titles, episodes, links and releases of the IMDb generator, with what their years promise. */
module ImdbTitles {
  import opened Wrappers
  import opened NumberTheory
  import opened Sampling
  import opened Imdb

  const MOVIE := 1
  const SERIES := 2
  const EPISODE := 3

  const FIXED_YEARS := [2016, 2007, 2006, 2009, 2008, 2007, 2016, 2007, 2011, 2015, 2012,
    2007, 2008, 2009, 2015, 2004, 2006, 2007, 1982, 1994, 1998, 2008]

  function KindOf(g: int): int {
    if g in {17, 18} then 2
    else if g <= 22 then 1
    else if g % 20 == 3 then 2
    else if g % 20 in {4, 5} then 3
    else if g % 20 == 6 then 4
    else if g % 20 == 7 then 5
    else if g % 20 == 8 then 6
    else if g % 20 == 9 then 7
    else 1
  }

  function Year(g: int): int
    requires g >= 1
  {
    if g <= 22 then FIXED_YEARS[g - 1]
    else if g % 20 in {4, 5} then Min(2022, 1950 + ((g / 20 * 20 + 3) * 17) % 73 + g % 20 - 4)
    else 1950 + (g * 17) % 73
  }

  function EpisodeOf(g: int): Option<int> {
    if g > 22 && g % 20 in {4, 5} then Some(g / 20 * 20 + 3) else None
  }

  function EpisodeNumber(g: int): Option<int> {
    if g > 22 && g % 20 in {4, 5} then Some(1 + (g / 20 * 2 + g % 20 - 4) % 99) else None
  }

  lemma YearsInRange(g: int)
    requires g >= 1
    ensures 1950 <= Year(g) <= 2022
  {
  }

  /** The title right after the last multiple of twenty plus two is a generated series. */
  lemma SeriesOf(g: int)
    requires g > 22 && g % 20 in {4, 5}
    ensures var series := g / 20 * 20 + 3;
      22 < series < g && series % 20 == 3 && KindOf(series) == SERIES && Year(series) <= Year(g)
  {
    var series := g / 20 * 20 + 3;
    DivisionIsUnique(series, 20, g / 20, 3);
  }

  /** Exactly the episodes name a series, an earlier title that exists and did not start later. */
  lemma EpisodesBelongToSeries(p: Params, g: int)
    requires Valid(p) && 1 <= g <= p.titles
    ensures KindOf(g) == EPISODE <==> EpisodeOf(g).Some?
    ensures EpisodeOf(g).Some? ==> 1 <= EpisodeOf(g).value < g && KindOf(EpisodeOf(g).value) == SERIES
    ensures EpisodeOf(g).Some? ==> Year(EpisodeOf(g).value) <= Year(g)
  {
    if EpisodeOf(g).Some? {
      SeriesOf(g);
    }
  }

  lemma NextNumberDiffers(a: int)
    ensures a % 99 != (a + 1) % 99
  {
  }

  /** Two episodes of one series have different numbers. */
  lemma EpisodeNumbersDiffer(g: int, h: int)
    requires g < h && EpisodeOf(g).Some? && EpisodeOf(g) == EpisodeOf(h)
    ensures EpisodeNumber(g).Some? && EpisodeNumber(h).Some?
    ensures EpisodeNumber(g) != EpisodeNumber(h)
  {
    assert g / 20 == h / 20;
    NextNumberDiffers(g / 20 * 2 + g % 20 - 4);
  }

  /** The smallest data set holds the 250 movies that the top and bottom ranks are given to. */
  lemma EnoughMoviesToRank(p: Params, j: int, k: int)
    requires Valid(p) && 1 <= j < k <= 250
    ensures var a, b := 30 + (j - 1) / 10 * 20 + (j - 1) % 10, 30 + (k - 1) / 10 * 20 + (k - 1) % 10;
      1 <= a < b <= p.titles && KindOf(a) == MOVIE && KindOf(b) == MOVIE
  {
    DivisionIsUnique(30 + (j - 1) / 10 * 20 + (j - 1) % 10, 20, 1 + (j - 1) / 10, 10 + (j - 1) % 10);
    DivisionIsUnique(30 + (k - 1) / 10 * 20 + (k - 1) % 10, 20, 1 + (k - 1) / 10, 10 + (k - 1) % 10);
  }

  // ---------------------------------------------------------------- movie_link

  datatype TitleLink = TitleLink(movie: int, linked: int, kind: int)

  function GeneratedLink(w: World, p: Params, g: int): TitleLink
    requires p.titles >= 1
  {
    TitleLink(1 + (g - 1) % p.titles,
      1 + (g + Draw(DetUniform(w, g, 61), p.titles - 1)) % p.titles,
      1 + g % 7)
  }

  function FixtureLink(movie: int, kind: int): TitleLink {
    var linked :=
      if movie == 21 && kind in {1, 2, 4, 6} then 19
      else if movie == 17 then 18
      else if movie == 18 then 17
      else movie + 1;
    TitleLink(movie, linked, kind)
  }

  predicate ProperLink(p: Params, link: TitleLink) {
    && 1 <= link.movie <= p.titles && 1 <= link.linked <= p.titles && link.movie != link.linked
    && 1 <= link.kind <= 7
  }

  /** An offset of less than a full round never leads back to the same remainder. */
  lemma OffsetMoves(a: int, offset: int, size: int)
    requires size >= 1 && 1 <= offset < size
    ensures (a + offset) % size != a % size
  {
    if (a + offset) % size == a % size {
      EqualRemainders(a + offset, a, size);
      MultipleBelow((a + offset) / size - a / size, size);
    }
  }

  /** A generated link joins two different titles that both exist. */
  lemma GeneratedLinksAreProper(w: World, p: Params, g: int)
    requires ValidWorld(w) && Valid(p) && 1 <= g <= p.links
    ensures ProperLink(p, GeneratedLink(w, p, g))
  {
    var u := DetUniform(w, g, 61);
    UniformInUnit(w, g, 61);
    DrawInRange(u, p.titles - 1);
    OffsetMoves(g - 1, 1 + Draw(u, p.titles - 1), p.titles);
  }

  lemma FixtureLinksAreProper(p: Params, movie: int, kind: int)
    requires Valid(p) && 1 <= movie <= 22 && 1 <= kind <= 7
    ensures ProperLink(p, FixtureLink(movie, kind))
  {
  }

  /** Order by year, then by id. */
  predicate Before(a: int, b: int)
    requires a >= 1 && b >= 1
  {
    Year(a) < Year(b) || (Year(a) == Year(b) && a < b)
  }

  /** The final update: a link that points the wrong way for its kind is turned around. */
  function Turned(p: Params, link: TitleLink): TitleLink
    requires ProperLink(p, link)
  {
    if (link.kind in {1, 2, 4, 6} && Before(link.movie, link.linked))
      || (link.kind in {3, 5, 7} && Before(link.linked, link.movie))
    then TitleLink(link.linked, link.movie, link.kind)
    else link
  }

  /** Sequels, followers, features and references point to an earlier title, their inverses to a later one. */
  predicate PointsRight(p: Params, link: TitleLink)
    requires ProperLink(p, link)
  {
    && (link.kind in {1, 2, 4, 6} ==> Before(link.linked, link.movie))
    && (link.kind in {3, 5, 7} ==> Before(link.movie, link.linked))
  }

  /** Turning is needed once: it joins the same titles, points the right way and changes nothing more. */
  lemma TurnedLinksPointRight(p: Params, link: TitleLink)
    requires ProperLink(p, link)
    ensures ProperLink(p, Turned(p, link)) && PointsRight(p, Turned(p, link))
    ensures Turned(p, Turned(p, link)) == Turned(p, link)
    ensures Turned(p, link) == link <==> PointsRight(p, link)
    ensures {Turned(p, link).movie, Turned(p, link).linked} == {link.movie, link.linked}
    ensures Turned(p, link).kind == link.kind
  {
  }

  /** Every link in the final database joins two different titles and points the right way. */
  lemma FinalLinksPointRight(w: World, p: Params, row: Row) returns (link: TitleLink)
    requires ValidWorld(w) && Valid(p) && Inserted(p, row) && TableOf(row) == MovieLink
    ensures match row
      case Link(g) => link == GeneratedLink(w, p, g)
      case LinkAnchor(movie, kind) => link == FixtureLink(movie, kind)
      case _ => false
    ensures ProperLink(p, link) && PointsRight(p, Turned(p, link))
  {
    match row
    case Link(g) =>
      link := GeneratedLink(w, p, g);
      GeneratedLinksAreProper(w, p, g);
      TurnedLinksPointRight(p, link);
    case LinkAnchor(movie, kind) =>
      link := FixtureLink(movie, kind);
      FixtureLinksAreProper(p, movie, kind);
      TurnedLinksPointRight(p, link);
  }

  // ---------------------------------------------------------------- movie_companies

  datatype Label = Vhs | CoProduction | Worldwide | BluRay | Theatrical

  function CompanyMovie(p: Params, g: int): int
    requires Stepped(p)
  {
    Image(g, p.companyStride, p.titles)
  }

  function CompanyOf(w: World, p: Params, g: int): int {
    1 + Draw(w.power(DetUniform(w, g, 31), 1.8), p.companies)
  }

  function CompanyType(w: World, p: Params, g: int): int {
    if g <= p.titles then 1 else 2 + Draw(DetUniform(w, g, 32), 3)
  }

  function LabelOf(w: World, produced: int, g: int): Label {
    var u := DetUniform(w, g, 33);
    if 1990 <= produced <= 1994 || (1980 <= produced <= 1999 && u < 0.25) then Vhs
    else match Draw(u, 4)
      case 0 => CoProduction
      case 1 => Worldwide
      case 2 => BluRay
      case _ => Theatrical
  }

  function ReleaseYear(w: World, produced: int, g: int): int {
    var u := DetUniform(w, g, 34);
    match LabelOf(w, produced, g)
    case Vhs =>
      if 1990 <= produced <= 1994 then 1994 else produced + Draw(u, 2006 - produced)
    case BluRay =>
      Max(2006, produced) + Draw(u, 2025 - Max(2006, produced))
    case _ => Min(2024, produced + Draw(u, 3))
  }

  /** No release precedes its title, and each medium stays inside the years it was sold in. */
  lemma ReleasesFollowProduction(w: World, p: Params, g: int)
    requires ValidWorld(w) && Valid(p)
    ensures var produced := Year(CompanyMovie(p, g));
      && produced <= ReleaseYear(w, produced, g) <= 2024
      && (LabelOf(w, produced, g) == Vhs ==> 1980 <= ReleaseYear(w, produced, g) <= 2005)
      && (LabelOf(w, produced, g) == BluRay ==> ReleaseYear(w, produced, g) >= 2006)
  {
    var produced := Year(CompanyMovie(p, g));
    YearsInRange(CompanyMovie(p, g));
    UniformInUnit(w, g, 34);
    var u := DetUniform(w, g, 34);
    if produced <= 2005 {
      DrawInRange(u, 2006 - produced);
    }
    DrawInRange(u, 2025 - Max(2006, produced));
    DrawInRange(u, 3);
  }

  predicate Produces(w: World, p: Params, g: int, title: int)
    requires Stepped(p)
  {
    1 <= g <= p.companyRows && CompanyMovie(p, g) == title && CompanyType(w, p, g) == 1
  }

  /** The generated rows give each title exactly one production company, one that exists. */
  lemma OneProducerPerTitle(w: World, p: Params, title: int) returns (g: int)
    requires ValidWorld(w) && Valid(p) && 1 <= title <= p.titles
    ensures Produces(w, p, g, title) && 1 <= CompanyOf(w, p, g) <= p.companies
    ensures forall h :: Produces(w, p, h, title) ==> h == g
  {
    g := ImageOnto(1, title, p.companyStride, p.titles);
    UniformInUnit(w, g, 31);
    DrawInRange(w.power(DetUniform(w, g, 31), 1.8), p.companies);
    forall h | Produces(w, p, h, title) ensures h == g {
      UniformInUnit(w, h, 32);
      DrawInRange(DetUniform(w, h, 32), 3);
      ImageInjective(g, h, p.companyStride, p.titles);
    }
  }
}
