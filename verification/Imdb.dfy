/** The IMDb generator (workload_profiles/imdb/generator.py): sizes, strides, credits, attributes and ids. */
module Imdb {
  import opened Wrappers
  import opened NumberTheory
  import opened Sampling

  datatype Params = Params(
    companies: int,
    people: int,
    characters: int,
    keywords: int,
    titles: int,
    castRows: int,
    keywordRows: int,
    companyRows: int,
    infoRows: int,
    indexRows: int,
    links: int,
    castStride: int,
    companyStride: int,
    infoStride: int)

  predicate SizedBy(p: Params, scale: real)
    requires scale > 0.0
  {
    && p.companies == Scaled(10_000, scale, 100)
    && p.people == Scaled(100_000, scale, 1_000)
    && p.characters == Scaled(50_000, scale, 1_000)
    && p.keywords == Scaled(20_000, scale, 500)
    && p.titles == Scaled(100_000, scale, 1_000)
    && p.castRows == Scaled(600_000, scale, p.titles * 3)
    && p.keywordRows == Scaled(300_000, scale, p.titles * 2)
    && p.companyRows == Scaled(150_000, scale, p.titles)
    && p.infoRows == p.titles * 4
    && p.indexRows == p.titles * 2
    && p.links == Scaled(100_000, scale, p.titles)
  }

  predicate Stepped(p: Params) {
    && p.titles >= 1 && p.castStride >= 0 && p.companyStride >= 0 && p.infoStride >= 0
    && Coprime(p.castStride, p.titles)
    && Coprime(p.companyStride, p.titles)
    && Coprime(p.infoStride, p.titles)
  }

  /** What every positive scale makes of the sizes. */
  predicate Sized(p: Params) {
    && p.companies >= 100 && p.people >= 1000 && p.characters >= 1000 && p.keywords >= 500
    && p.titles >= 1000 && p.castRows >= 3 * p.titles && p.keywordRows >= 2 * p.titles
    && p.companyRows >= p.titles && p.links >= p.titles
    && p.infoRows == 4 * p.titles && p.indexRows == 2 * p.titles
  }

  /** All that the theorems below need of the parameters; BuildParams gives it at every scale. */
  predicate Valid(p: Params) {
    Stepped(p) && Sized(p)
  }

  /** build_load_plan up to its parameters; a scale that is not positive is refused. */
  method BuildParams(scale: real) returns (r: Option<Params>)
    ensures r.None? <==> scale <= 0.0
    ensures r.Some? ==> SizedBy(r.value, scale) && Stepped(r.value) && Valid(r.value)
  {
    if scale <= 0.0 {
      return None;
    }
    var titles := Scaled(100_000, scale, 1_000);
    var castStride := CoprimeStride(65537, titles);
    var companyStride := CoprimeStride(32771, titles);
    var infoStride := CoprimeStride(8191, titles);
    r := Some(Params(Scaled(10_000, scale, 100), Scaled(100_000, scale, 1_000), Scaled(50_000, scale, 1_000),
      Scaled(20_000, scale, 500), titles, Scaled(600_000, scale, titles * 3), Scaled(300_000, scale, titles * 2),
      Scaled(150_000, scale, titles), titles * 4, titles * 2, Scaled(100_000, scale, titles),
      castStride, companyStride, infoStride));
    assert SizedBy(r.value, scale);
  }

  // ---------------------------------------------------------------- windows of keys

  /** The number of the window of size keys that g lies in, counted from one. */
  function Slot(g: int, size: nat): int
    requires size >= 1
  {
    1 + (g - 1) / size
  }

  lemma SlotWindow(g: int, size: nat, slot: int)
    requires size >= 1
    ensures Slot(g, size) == slot <==> 1 <= g - (slot - 1) * size <= size
  {
    var q := (g - 1) / size;
    assert g - 1 == q * size + (g - 1) % size;
    if 1 <= g - (slot - 1) * size <= size {
      DivisionIsUnique(g - 1, size, slot - 1, g - 1 - (slot - 1) * size);
    }
  }

  predicate Cell(g: int, stride: nat, size: nat, v: int, slot: int)
    requires size >= 1
  {
    Image(g, stride, size) == v && Slot(g, size) == slot
  }

  /** Exactly one of the keys 1..limit falls on the value v in the given slot. */
  ghost predicate FilledOnce(limit: int, stride: nat, size: nat, v: int, slot: int)
    requires size >= 1
  {
    exists g :: 1 <= g <= limit && Cell(g, stride, size, v, slot)
      && forall h :: 1 <= h <= limit && Cell(h, stride, size, v, slot) ==> h == g
  }

  /** The value and the slot together identify a key. */
  lemma CellsAreUnique(g: int, h: int, stride: nat, size: nat, v: int, slot: int)
    requires size >= 1 && Coprime(stride, size)
    requires Cell(g, stride, size, v, slot) && Cell(h, stride, size, v, slot)
    ensures g == h
  {
    SlotWindow(g, size, slot);
    SlotWindow(h, size, slot);
    ImageInjective(g, h, stride, size);
  }

  /** Every value is hit exactly once in every slot that lies within the limit. */
  lemma CellsAreFilled(limit: int, stride: nat, size: nat, v: int, slot: int)
    requires size >= 1 && Coprime(stride, size) && 1 <= v <= size
    requires 1 <= slot && slot * size <= limit
    ensures FilledOnce(limit, stride, size, v, slot)
  {
    var first := (slot - 1) * size + 1;
    var g := ImageOnto(first, v, stride, size);
    MultiplyMonotone(0, slot - 1, size);
    assert slot * size == (slot - 1) * size + size;
    SlotWindow(g, size, slot);
    assert Cell(g, stride, size, v, slot);
    forall h | 1 <= h <= limit && Cell(h, stride, size, v, slot) ensures h == g {
      CellsAreUnique(g, h, stride, size, v, slot);
    }
  }

  lemma OneIsCoprime(size: nat)
    ensures Coprime(1, size)
  {
    CombinationIsCoprime(1, size, 1, 0);
  }

  // ---------------------------------------------------------------- cast_info

  datatype Gender = Female | Male

  function GenderOf(w: World, person: int): Gender {
    if person in {2, 3, 6} then Female
    else if person in {1, 4, 5, 7, 8} then Male
    else if Draw(DetUniform(w, person, 102), 12) in {2, 3, 5, 6, 8, 10} then Female
    else Male
  }

  function CastPerson(w: World, p: Params, g: int): int {
    1 + Draw(w.power(DetUniform(w, g, 11), 1.5), p.people)
  }

  function CastMovie(p: Params, g: int): int
    requires Stepped(p)
  {
    Image(g, p.castStride, p.titles)
  }

  function CastRole(w: World, p: Params, g: int): int {
    if g <= p.titles then 1
    else if g <= 2 * p.titles then 3
    else 1 + Draw(DetUniform(w, g, 15), 6)
  }

  function CastCharacter(w: World, p: Params, g: int): Option<int> {
    if CastRole(w, p, g) in {1, 2} then Some(1 + Draw(DetUniform(w, g, 12), p.characters)) else None
  }

  /** The role after the update that turns actors and actresses into what their gender says. */
  function CorrectedRole(w: World, p: Params, g: int): int {
    var role := CastRole(w, p, g);
    if role in {1, 2} then (if GenderOf(w, CastPerson(w, p, g)).Female? then 2 else 1) else role
  }

  /** A row gives the title an actor or actress of the matching gender, who plays a character. */
  predicate ActsIn(w: World, p: Params, g: int, title: int)
    requires Stepped(p)
  {
    && CastMovie(p, g) == title
    && CorrectedRole(w, p, g) == (if GenderOf(w, CastPerson(w, p, g)).Female? then 2 else 1)
    && CastCharacter(w, p, g).Some?
  }

  predicate Writes(w: World, p: Params, g: int, title: int)
    requires Stepped(p)
  {
    CastMovie(p, g) == title && CorrectedRole(w, p, g) == 3 && CastCharacter(w, p, g).None?
  }

  predicate Credit(p: Params, g: int, title: int, nr: int)
    requires Stepped(p)
  {
    1 <= g <= p.castRows && Cell(g, p.castStride, p.titles, title, nr)
  }

  /**
   * Credit number nr of a title, the pair that nr_order and movie_id form, names at most one
   * generated row, and exactly one while all titles get a credit of that number.
   */
  lemma CreditNumbersAreKeys(p: Params, title: int, nr: int)
    requires Valid(p) && 1 <= title <= p.titles
    ensures forall g, h :: Credit(p, g, title, nr) && Credit(p, h, title, nr) ==> g == h
    ensures 1 <= nr && nr * p.titles <= p.castRows ==> FilledOnce(p.castRows, p.castStride, p.titles, title, nr)
  {
    forall g, h | Credit(p, g, title, nr) && Credit(p, h, title, nr) ensures g == h {
      CellsAreUnique(g, h, p.castStride, p.titles, title, nr);
    }
    if 1 <= nr && nr * p.titles <= p.castRows {
      CellsAreFilled(p.castRows, p.castStride, p.titles, title, nr);
    }
  }

  /** Every title has an acting credit and a writing credit, also after the corrections. */
  lemma EveryTitleIsCredited(w: World, p: Params, title: int) returns (acting: int, writing: int)
    requires Valid(p) && 1 <= title <= p.titles
    ensures 1 <= acting <= p.titles && ActsIn(w, p, acting, title) && CastRole(w, p, acting) == 1
    ensures p.titles < writing <= 2 * p.titles && Writes(w, p, writing, title)
    ensures 2 * p.titles <= p.castRows
    ensures forall g :: 1 <= g <= p.titles && CastMovie(p, g) == title ==> g == acting
    ensures forall g :: p.titles < g <= 2 * p.titles && CastMovie(p, g) == title ==> g == writing
  {
    acting := ImageOnto(1, title, p.castStride, p.titles);
    writing := ImageOnto(p.titles + 1, title, p.castStride, p.titles);
    forall g | 1 <= g <= p.titles && CastMovie(p, g) == title ensures g == acting {
      ImageInjective(g, acting, p.castStride, p.titles);
    }
    forall g | p.titles < g <= 2 * p.titles && CastMovie(p, g) == title ensures g == writing {
      ImageInjective(g, writing, p.castStride, p.titles);
    }
  }

  /** A generated credit refers to rows that exist, and only actors and actresses play a character. */
  lemma CastReferencesExist(w: World, p: Params, g: int)
    requires ValidWorld(w) && Valid(p) && 1 <= g <= p.castRows
    ensures 1 <= CastPerson(w, p, g) <= p.people && 1 <= CastMovie(p, g) <= p.titles
    ensures 1 <= CastRole(w, p, g) <= 6 && 1 <= CorrectedRole(w, p, g) <= 6
    ensures CastCharacter(w, p, g).Some? <==> CorrectedRole(w, p, g) in {1, 2}
    ensures CastCharacter(w, p, g).Some? ==> 1 <= CastCharacter(w, p, g).value <= p.characters
  {
    UniformInUnit(w, g, 11);
    DrawInRange(w.power(DetUniform(w, g, 11), 1.5), p.people);
    UniformInUnit(w, g, 12);
    DrawInRange(DetUniform(w, g, 12), p.characters);
    UniformInUnit(w, g, 15);
    DrawInRange(DetUniform(w, g, 15), 6);
  }

  // ---------------------------------------------------------------- movie_info, movie_info_idx, complete_cast

  /**
   * The generated attributes have only the four slots that the type lookup knows, and give each
   * title each of genre, budget, country and release date exactly once.
   */
  lemma AttributesAreComplete(p: Params, title: int, slot: int)
    requires p.infoStride >= 0 && 1 <= title <= p.titles && Coprime(p.infoStride, p.titles)
    requires p.infoRows == 4 * p.titles && 1 <= slot <= 4
    ensures FilledOnce(p.infoRows, p.infoStride, p.titles, title, slot)
    ensures forall g :: 1 <= g <= p.infoRows ==> 1 <= Slot(g, p.titles) <= 4
  {
    MultiplyMonotone(slot, 4, p.titles);
    CellsAreFilled(p.infoRows, p.infoStride, p.titles, title, slot);
    forall g | 1 <= g <= p.infoRows ensures 1 <= Slot(g, p.titles) <= 4 {
      QuotientBounds(g - 1, p.titles, 0, 4);
    }
  }

  function IndexMovie(p: Params, g: int): int
    requires p.titles >= 1
  {
    1 + (g - 1) % p.titles
  }

  function IndexType(p: Params, g: int): int {
    if g <= p.titles then 3 else 5
  }

  predicate IndexRow(p: Params, g: int, title: int, kind: int)
    requires p.titles >= 1
  {
    1 <= g <= p.indexRows && IndexMovie(p, g) == title && IndexType(p, g) == kind
  }

  /** 1 + (g - 1) % size runs through 1..size over and over. */
  lemma WrappedKey(v: int, size: int)
    requires 1 <= v <= size
    ensures 1 + (v - 1) % size == v && 1 + (size + v - 1) % size == v
  {
    DivisionIsUnique(v - 1, size, 0, v - 1);
    DivisionIsUnique(size + v - 1, size, 1, v - 1);
  }

  lemma WrappedKeyIsUnique(g: int, h: int, size: int)
    requires size >= 1
    ensures g - h < size && h - g < size && (g - 1) % size == (h - 1) % size ==> g == h
  {
    OneIsCoprime(size);
    if g - h < size && h - g < size && (g - 1) % size == (h - 1) % size {
      ImageInjective(g, h, 1, size);
    }
  }

  /** Each title has exactly one rating and one vote count, so the ranking joins one row per title. */
  lemma OneRatingOneVote(p: Params, title: int, kind: int) returns (g: int)
    requires p.indexRows == 2 * p.titles && 1 <= title <= p.titles && kind in {3, 5}
    ensures IndexRow(p, g, title, kind)
    ensures forall h :: IndexRow(p, h, title, kind) ==> h == g
  {
    g := if kind == 3 then title else p.titles + title;
    WrappedKey(title, p.titles);
    forall h | IndexRow(p, h, title, kind) ensures h == g {
      WrappedKeyIsUnique(g, h, p.titles);
    }
  }

  /** complete_cast states for each title the cast and the crew exactly once. */
  lemma CompleteCastIsComplete(p: Params, title: int, subject: int)
    requires 1 <= title <= p.titles && 1 <= subject <= 2
    ensures FilledOnce(p.titles * 2, 1, p.titles, title, subject)
  {
    OneIsCoprime(p.titles);
    CellsAreFilled(p.titles * 2, 1, p.titles, title, subject);
  }

  // ---------------------------------------------------------------- movie_keyword

  function KeywordMovie(p: Params, g: int): int
    requires Stepped(p)
  {
    Image(g, p.castStride, p.titles)
  }

  function Keyword(w: World, p: Params, g: int): int
    requires Stepped(p)
  {
    if g <= p.titles && KeywordMovie(p, g) % 100 == 7 then 13
    else if g <= p.titles && KeywordMovie(p, g) % 100 == 21 then 2
    else 1 + Draw(w.power(DetUniform(w, g, 21), 2.0), p.keywords)
  }

  /** The titles named after murder or money carry the keyword that says so, and all keywords exist. */
  lemma NamedTitlesAreTagged(w: World, p: Params, title: int) returns (g: int)
    requires Valid(p) && 1 <= title <= p.titles && title % 100 in {7, 21}
    ensures 1 <= g <= p.keywordRows && KeywordMovie(p, g) == title
    ensures Keyword(w, p, g) == if title % 100 == 7 then 13 else 2
    ensures ValidWorld(w) ==> forall h :: 1 <= Keyword(w, p, h) <= p.keywords
  {
    g := ImageOnto(1, title, p.castStride, p.titles);
    if ValidWorld(w) {
      forall h ensures 1 <= Keyword(w, p, h) <= p.keywords {
        UniformInUnit(w, h, 21);
        DrawInRange(w.power(DetUniform(w, h, 21), 2.0), p.keywords);
      }
    }
  }

  // ---------------------------------------------------------------- identifiers

  /** The rows that several statements insert into one table; Anchor rows come from the fixture lists. */
  datatype Row =
    | Cast(g: int) | CastAnchor(movie: int, nr: int)
    | TaggedMovie(g: int) | TaggedMovieAnchor(movie: int, keyword: int)
    | Company(g: int) | CompanyAnchor(movie: int, company: int, kind: int)
    | Info(g: int) | InfoAnchor(number: int)
    | Indexed(g: int) | TopRanked(rank: int) | BottomRanked(rank: int)
    | Person(g: int) | PersonAnchor(number: int)
    | Link(g: int) | LinkAnchor(movie: int, kind: int)

  datatype Table = CastInfo | MovieKeyword | MovieCompanies | MovieInfo | MovieInfoIdx | PersonInfo | MovieLink

  function TableOf(row: Row): Table {
    match row
    case Cast(_) | CastAnchor(_, _) => CastInfo
    case TaggedMovie(_) | TaggedMovieAnchor(_, _) => MovieKeyword
    case Company(_) | CompanyAnchor(_, _, _) => MovieCompanies
    case Info(_) | InfoAnchor(_) => MovieInfo
    case Indexed(_) | TopRanked(_) | BottomRanked(_) => MovieInfoIdx
    case Person(_) | PersonAnchor(_) => PersonInfo
    case Link(_) | LinkAnchor(_, _) => MovieLink
  }

  /** The rows that are inserted; number is the row_number of an anchor over 22 * 23 or 6 * 3 rows. */
  predicate Inserted(p: Params, row: Row) {
    match row
    case Cast(g) => 1 <= g <= p.castRows
    case CastAnchor(movie, nr) => 1 <= movie <= 22 && 1 <= nr <= 11
    case TaggedMovie(g) => 1 <= g <= p.keywordRows
    case TaggedMovieAnchor(movie, keyword) => 1 <= movie <= 22 && 1 <= keyword <= 32
    case Company(g) => 1 <= g <= p.companyRows
    case CompanyAnchor(movie, company, kind) => 1 <= movie <= 22 && 1 <= company <= 13 && 1 <= kind <= 2
    case Info(g) => 1 <= g <= p.infoRows
    case InfoAnchor(number) => 1 <= number <= 506
    case Indexed(g) => 1 <= g <= p.indexRows
    case TopRanked(rank) => 1 <= rank <= 250
    case BottomRanked(rank) => 1 <= rank <= 10
    case Person(g) => 1 <= g <= p.people
    case PersonAnchor(number) => 1 <= number <= 18
    case Link(g) => 1 <= g <= p.links
    case LinkAnchor(movie, kind) => 1 <= movie <= 22 && 1 <= kind <= 7
  }

  function Id(p: Params, row: Row): int {
    match row
    case Cast(g) => g
    case CastAnchor(movie, nr) => p.castRows + (movie - 1) * 11 + nr
    case TaggedMovie(g) => g
    case TaggedMovieAnchor(movie, keyword) => p.keywordRows + (movie - 1) * 32 + keyword
    case Company(g) => g
    case CompanyAnchor(movie, company, kind) => p.companyRows + (movie - 1) * 26 + (company - 1) * 2 + kind
    case Info(g) => g
    case InfoAnchor(number) => p.infoRows + number
    case Indexed(g) => g
    case TopRanked(rank) => p.indexRows + rank
    case BottomRanked(rank) => p.indexRows + 250 + rank
    case Person(g) => g
    case PersonAnchor(number) => p.people + number
    case Link(g) => g
    case LinkAnchor(movie, kind) => p.links + (movie - 1) * 7 + kind
  }

  function LastId(p: Params, table: Table): int {
    match table
    case CastInfo => p.castRows + 22 * 11
    case MovieKeyword => p.keywordRows + 22 * 32
    case MovieCompanies => p.companyRows + 22 * 13 * 2
    case MovieInfo => p.infoRows + 22 * 23
    case MovieInfoIdx => p.indexRows + 250 + 10
    case PersonInfo => p.people + 6 * 3
    case MovieLink => p.links + 22 * 7
  }

  /** Two rows of one table never share an id, whatever statements insert them. */
  lemma IdsNeverCollide(p: Params, a: Row, b: Row)
    requires Inserted(p, a) && Inserted(p, b) && TableOf(a) == TableOf(b) && Id(p, a) == Id(p, b)
    ensures a == b
  {
  }

  /** The row that carries an id, recovered by undoing the mixed-radix offsets. */
  function RowAt(p: Params, table: Table, id: int): Row {
    match table
    case CastInfo =>
      var rest := id - p.castRows - 1;
      if rest < 0 then Cast(id) else CastAnchor(1 + rest / 11, 1 + rest % 11)
    case MovieKeyword =>
      var rest := id - p.keywordRows - 1;
      if rest < 0 then TaggedMovie(id) else TaggedMovieAnchor(1 + rest / 32, 1 + rest % 32)
    case MovieCompanies =>
      var rest := id - p.companyRows - 1;
      if rest < 0 then Company(id) else CompanyAnchor(1 + rest / 26, 1 + rest % 26 / 2, 1 + rest % 26 % 2)
    case MovieInfo =>
      if id <= p.infoRows then Info(id) else InfoAnchor(id - p.infoRows)
    case MovieInfoIdx =>
      var rest := id - p.indexRows;
      if rest <= 0 then Indexed(id) else if rest <= 250 then TopRanked(rest) else BottomRanked(rest - 250)
    case PersonInfo =>
      if id <= p.people then Person(id) else PersonAnchor(id - p.people)
    case MovieLink =>
      var rest := id - p.links - 1;
      if rest < 0 then Link(id) else LinkAnchor(1 + rest / 7, 1 + rest % 7)
  }

  lemma RowAtHasId(p: Params, table: Table, id: int)
    requires 1 <= id <= LastId(p, table)
    ensures var row := RowAt(p, table, id); TableOf(row) == table && Inserted(p, row) && Id(p, row) == id
  {
  }

  /** The ids of a table are 1 up to the last one without gaps, and each names exactly one row. */
  lemma IdsAreKeys(p: Params, table: Table, id: int)
    ensures 1 <= id <= LastId(p, table) ==>
      forall row :: TableOf(row) == table && Inserted(p, row) && Id(p, row) == id <==> row == RowAt(p, table, id)
    ensures Sized(p) && !(1 <= id <= LastId(p, table)) ==>
      forall row :: TableOf(row) == table && Inserted(p, row) ==> Id(p, row) != id
  {
    if 1 <= id <= LastId(p, table) {
      RowAtHasId(p, table, id);
      forall row | TableOf(row) == table && Inserted(p, row) && Id(p, row) == id ensures row == RowAt(p, table, id) {
        IdsNeverCollide(p, row, RowAt(p, table, id));
      }
    }
  }
}
