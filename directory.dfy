/**
 * The artist directory: a fixed list of listings narrowed by four criteria
 * combined with AND (free text, category, location, price bracket), and
 * the list of distinct locations.
 */
module Directory {
  import Seqs
  import opened Text

  /** A listing. The rating is a floating-point value no logic reads and is not kept. */
  datatype Artist = Artist(
    id: nat,
    name: string,
    category: string,
    location: string,
    reviews: nat,
    priceRange: string,
    priceMin: int,
    bio: string,
    image: string,
    languages: seq<string>,
    verified: bool)

  /** The page's mock listings, in source order. */
  function ArtistsData(): seq<Artist>
  {
    [SarahJohnson(), DanceUnity(), DjRohit(), PriyaSharma(), RajeshMehta(), FusionBeats()]
  }

  function SarahJohnson(): Artist
  {
    Artist(1, "Sarah Johnson", "Singer", "Mumbai", 124, "₹25,000 - ₹50,000", 25000,
      "Professional singer with 8+ years experience in weddings and corporate events",
      "https://images.unsplash.com/photo-1649972904349-6e44c42644a7?w=400&h=400&fit=crop",
      ["Hindi", "English", "Punjabi"], true)
  }

  function DanceUnity(): Artist
  {
    Artist(2, "Dance Unity", "Dancer", "Delhi", 89, "₹40,000 - ₹80,000", 40000,
      "Contemporary dance group specializing in Bollywood and fusion performances",
      "https://images.unsplash.com/photo-1581091226825-a6a2a5aee158?w=400&h=400&fit=crop",
      ["Hindi", "English"], true)
  }

  function DjRohit(): Artist
  {
    Artist(3, "DJ Rohit", "DJ", "Bangalore", 156, "₹20,000 - ₹35,000", 20000,
      "Electronic music producer and DJ with experience in nightclubs and parties",
      "https://images.unsplash.com/photo-1518770660439-4636190af475?w=400&h=400&fit=crop",
      ["English", "Kannada", "Hindi"], true)
  }

  function PriyaSharma(): Artist
  {
    Artist(4, "Priya Sharma", "Singer", "Mumbai", 203, "₹30,000 - ₹60,000", 30000,
      "Classical and contemporary singer, perfect for traditional and modern events",
      "https://images.unsplash.com/photo-1486312338219-ce68d2c6f44d?w=400&h=400&fit=crop",
      ["Hindi", "English", "Marathi"], true)
  }

  function RajeshMehta(): Artist
  {
    Artist(5, "Rajesh Mehta", "Speaker", "Delhi", 67, "₹15,000 - ₹25,000", 15000,
      "Motivational speaker and corporate trainer with 10+ years experience",
      "https://images.unsplash.com/photo-1500673922987-e212871fec22?w=400&h=400&fit=crop",
      ["Hindi", "English"], false)
  }

  function FusionBeats(): Artist
  {
    Artist(6, "Fusion Beats", "DJ", "Goa", 91, "₹35,000 - ₹70,000", 35000,
      "Professional DJ duo specializing in beach parties and destination weddings",
      "https://images.unsplash.com/photo-1501854140801-50d01698950b?w=400&h=400&fit=crop",
      ["English", "Hindi", "Konkani"], true)
  }

  /** The four filter inputs; "all" switches a selector off. */
  datatype Criteria = Criteria(
    searchQuery: string,
    categoryFilter: string,
    locationFilter: string,
    priceFilter: string)

  /** The criteria the page starts with. */
  function NoCriteria(): Criteria
  {
    Criteria("", "all", "all", "all")
  }

  // ---------------------------------------------------------------------
  // The four criteria

  predicate MatchesSearch(a: Artist, q: string)
  {
    || Contains(ToLower(a.name), ToLower(q))
    || Contains(ToLower(a.category), ToLower(q))
    || Contains(ToLower(a.bio), ToLower(q))
  }

  predicate MatchesCategory(a: Artist, c: string)
  {
    c == "all" || ToLower(a.category) == ToLower(c)
  }

  predicate MatchesLocation(a: Artist, l: string)
  {
    l == "all" || a.location == l
  }

  /**
   * The bounds of a "min-max" bracket: the first two pieces of the string
   * split at "-", each read as a number. `None` when either bound is not a
   * number (including a missing second piece), in which case no listing
   * is inside the bracket.
   */
  function PriceBounds(f: string): Option<(nat, nat)>
  {
    var parts := Split(f, '-');
    if |parts| < 2 then None
    else
      match (ParseNumber(parts[0]), ParseNumber(parts[1]))
      case (Some(lo), Some(hi)) => Some((lo, hi))
      case _ => None
  }

  /** "all" is not a bracket. */
  lemma AllHasNoBounds()
    ensures PriceBounds("all") == None
  {
    SplitNoSeparator("all", '-');
  }

  predicate MatchesPrice(a: Artist, f: string)
  {
    f == "all" ||
    (PriceBounds(f).Some? && PriceBounds(f).value.0 <= a.priceMin <= PriceBounds(f).value.1)
  }

  predicate Matches(a: Artist, c: Criteria)
  {
    && MatchesSearch(a, c.searchQuery)
    && MatchesCategory(a, c.categoryFilter)
    && MatchesLocation(a, c.locationFilter)
    && MatchesPrice(a, c.priceFilter)
  }

  function MatchesCriteria(c: Criteria): Artist -> bool
  {
    a => Matches(a, c)
  }

  /**
   * The listings shown: those meeting every criterion, in source order.
   * The input list itself is a value and is left as it is.
   */
  function FilteredArtists(data: seq<Artist>, c: Criteria): (r: seq<Artist>)
    ensures Seqs.IsSubsequence(r, data)
    ensures forall i :: 0 <= i < |r| ==> Matches(r[i], c)
    ensures forall i :: 0 <= i < |data| && Matches(data[i], c) ==> data[i] in r
  {
    Seqs.FilterIsSubsequence(data, MatchesCriteria(c));
    Seqs.Filter(data, MatchesCriteria(c))
  }

  // ---------------------------------------------------------------------
  // Properties of the filter

  /** With an empty query and every selector on "all", every listing is shown. */
  lemma NoCriteriaShowsAll(data: seq<Artist>)
    ensures FilteredArtists(data, NoCriteria()) == data
  {
    forall i | 0 <= i < |data| ensures Matches(data[i], NoCriteria()) {
      ContainsEmpty(ToLower(data[i].name));
    }
    Seqs.FilterKeepsAll(data, MatchesCriteria(NoCriteria()));
  }

  /** The "No artists found" message shows exactly when no listing meets the criteria. */
  lemma NothingFoundIffNoMatch(data: seq<Artist>, c: Criteria)
    ensures |FilteredArtists(data, c)| == 0 <==> forall i :: 0 <= i < |data| ==> !Matches(data[i], c)
  {
    forall i | 0 <= i < |data| && Matches(data[i], c) ensures |FilteredArtists(data, c)| > 0 {
      assert data[i] in FilteredArtists(data, c);
    }
  }

  /** Each listing is shown as often as it occurs in the data when it matches, otherwise never. */
  lemma FilteredMultiplicity(data: seq<Artist>, c: Criteria, a: Artist)
    ensures multiset(FilteredArtists(data, c))[a] == if Matches(a, c) then multiset(data)[a] else 0
  {
    Seqs.FilterMultiplicity(data, MatchesCriteria(c), a);
  }

  /**
   * The category selector ignores case on both sides: a selector value
   * other than "all" selects the same listings as its lower-cased form.
   */
  lemma CategoryIgnoresCase(a: Artist, c: string)
    requires ToLower(c) != "all"
    ensures MatchesCategory(a, c) <==> MatchesCategory(a, ToLower(c))
  {
    ToLowerIdempotent(c);
  }

  /** The selector value "dj" picks the category "DJ". */
  lemma DjSelectsDJ(a: Artist)
    ensures MatchesCategory(a, "dj") <==> ToLower(a.category) == "dj"
    ensures a.category == "DJ" ==> MatchesCategory(a, "dj")
  {
    assert ToLower("dj") == "dj";
    assert ToLower("DJ") == "dj";
  }

  /** The location selector compares exactly: "mumbai" does not pick "Mumbai". */
  lemma LocationIsCaseSensitive(a: Artist)
    requires a.location == "Mumbai"
    ensures MatchesLocation(a, "Mumbai")
    ensures !MatchesLocation(a, "mumbai")
  {
  }

  /** A bracket written "lo-hi" holds exactly the minimum prices from lo to hi, both ends included. */
  lemma BracketInclusive(a: Artist, f: string, lo: nat, hi: nat)
    requires f == Decimal(lo) + "-" + Decimal(hi)
    ensures MatchesPrice(a, f) <==> lo <= a.priceMin <= hi
  {
    SplitAfterPiece(Decimal(lo), '-', Decimal(hi));
    SplitNoSeparator(Decimal(hi), '-');
    ParseDecimal(lo);
    ParseDecimal(hi);
    assert f[|Decimal(lo)|] == '-';
    assert '-' in f && '-' !in "all";
  }

  lemma DecimalSpellings()
    ensures Decimal(0) == "0" && Decimal(25000) == "25000"
    ensures Decimal(50000) == "50000" && Decimal(100000) == "100000"
  {
    assert Decimal(2) == "2";
    assert Decimal(25) == "25";
    assert Decimal(250) == "250";
    assert Decimal(2500) == "2500";
    assert Decimal(5) == "5";
    assert Decimal(50) == "50";
    assert Decimal(500) == "500";
    assert Decimal(5000) == "5000";
    assert Decimal(1) == "1";
    assert Decimal(10) == "10";
    assert Decimal(100) == "100";
    assert Decimal(1000) == "1000";
    assert Decimal(10000) == "10000";
  }

  /** The page's three price options, and a listing at 25000 falling into both of the first two. */
  lemma SelectBrackets(a: Artist)
    ensures MatchesPrice(a, "0-25000") <==> 0 <= a.priceMin <= 25000
    ensures MatchesPrice(a, "25000-50000") <==> 25000 <= a.priceMin <= 50000
    ensures MatchesPrice(a, "50000-100000") <==> 50000 <= a.priceMin <= 100000
    ensures a.priceMin == 25000 ==> MatchesPrice(a, "0-25000") && MatchesPrice(a, "25000-50000")
  {
    DecimalSpellings();
    assert "0-25000" == Decimal(0) + "-" + Decimal(25000);
    assert "25000-50000" == Decimal(25000) + "-" + Decimal(50000);
    assert "50000-100000" == Decimal(50000) + "-" + Decimal(100000);
    BracketInclusive(a, "0-25000", 0, 25000);
    BracketInclusive(a, "25000-50000", 25000, 50000);
    BracketInclusive(a, "50000-100000", 50000, 100000);
  }

  /** Bracket `f2` lies inside bracket `f1`. */
  predicate BracketWithin(f2: string, f1: string)
  {
    && PriceBounds(f2).Some? && PriceBounds(f1).Some?
    && PriceBounds(f1).value.0 <= PriceBounds(f2).value.0
    && PriceBounds(f2).value.1 <= PriceBounds(f1).value.1
  }

  /**
   * `c2` is at least as restrictive as `c1` on every criterion: its query
   * includes `c1`'s (ignoring case) and each selector of `c1` is either
   * "all" or kept (the price bracket possibly narrowed).
   */
  predicate AtLeastAsStrict(c2: Criteria, c1: Criteria)
  {
    && Contains(ToLower(c2.searchQuery), ToLower(c1.searchQuery))
    && (c1.categoryFilter == "all" || c2.categoryFilter == c1.categoryFilter)
    && (c1.locationFilter == "all" || c2.locationFilter == c1.locationFilter)
    && (c1.priceFilter == "all" || c2.priceFilter == c1.priceFilter || BracketWithin(c2.priceFilter, c1.priceFilter))
  }

  /** Making the criteria stricter never adds a listing: the new result filters the old one. */
  lemma StricterCriteriaNeverAdd(data: seq<Artist>, c1: Criteria, c2: Criteria)
    requires AtLeastAsStrict(c2, c1)
    ensures FilteredArtists(data, c2) == Seqs.Filter(FilteredArtists(data, c1), MatchesCriteria(c2))
    ensures Seqs.IsSubsequence(FilteredArtists(data, c2), FilteredArtists(data, c1))
  {
    forall i | 0 <= i < |data| && Matches(data[i], c2) ensures Matches(data[i], c1) {
      var a := data[i];
      var q1, q2 := ToLower(c1.searchQuery), ToLower(c2.searchQuery);
      if Contains(ToLower(a.name), q2) {
        ContainsTransitive(ToLower(a.name), q2, q1);
      } else if Contains(ToLower(a.category), q2) {
        ContainsTransitive(ToLower(a.category), q2, q1);
      } else {
        ContainsTransitive(ToLower(a.bio), q2, q1);
      }
      assert MatchesSearch(a, c1.searchQuery);
      assert MatchesCategory(a, c1.categoryFilter);
      assert MatchesLocation(a, c1.locationFilter);
      AllHasNoBounds();
      assert MatchesPrice(a, c1.priceFilter);
    }
    Seqs.FilterNarrows(data, MatchesCriteria(c1), MatchesCriteria(c2));
  }

  /** Typing more characters into the search box never adds a listing. */
  lemma LongerQueryNeverAdds(data: seq<Artist>, c: Criteria, more: string)
    ensures Seqs.IsSubsequence(
      FilteredArtists(data, c.(searchQuery := c.searchQuery + more)), FilteredArtists(data, c))
  {
    var q := c.searchQuery;
    assert (q + more)[0..|q|] == q;
    OccursContains(q + more, q, 0);
    ContainsToLower(q + more, q);
    StricterCriteriaNeverAdd(data, c, c.(searchQuery := q + more));
  }

  // ---------------------------------------------------------------------
  // The location list

  function LocationOf(a: Artist): string
  {
    a.location
  }

  /** "All" followed by each location once, in the order it first appears. */
  function Locations(data: seq<Artist>): (r: seq<string>)
    ensures |r| >= 1 && r[0] == "All"
    ensures Seqs.NoDuplicates(r[1..])
    ensures forall i :: 0 <= i < |data| ==> data[i].location in r[1..]
    ensures forall k :: 1 <= k < |r| ==> exists i :: 0 <= i < |data| && data[i].location == r[k]
  {
    var locs := Seqs.MapSeq(data, LocationOf);
    var distinct := Seqs.Dedup(locs);
    assert (["All"] + distinct)[1..] == distinct;
    assert forall i :: 0 <= i < |data| ==> locs[i] == data[i].location;
    ["All"] + distinct
  }

  /** The distinct locations keep the order of their first appearance in the data. */
  lemma LocationsInFirstOccurrenceOrder(data: seq<Artist>)
    ensures forall j, k :: 1 <= j < k < |Locations(data)| ==>
      Seqs.FirstIndex(Seqs.MapSeq(data, LocationOf), Locations(data)[j])
        < Seqs.FirstIndex(Seqs.MapSeq(data, LocationOf), Locations(data)[k])
  {
    var locs := Seqs.MapSeq(data, LocationOf);
    Seqs.DedupFirstOccurrenceOrder(locs);
    assert Locations(data)[1..] == Seqs.Dedup(locs);
    forall j, k | 1 <= j < k < |Locations(data)|
      ensures Seqs.FirstIndex(locs, Locations(data)[j]) < Seqs.FirstIndex(locs, Locations(data)[k])
    {
      assert Locations(data)[j] == Seqs.Dedup(locs)[j - 1];
      assert Locations(data)[k] == Seqs.Dedup(locs)[k - 1];
    }
  }
}
