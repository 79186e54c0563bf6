/**
 * The administrative dashboard: a fixed table of onboarding submissions
 * narrowed by a free-text search and a status selector, three counters
 * over the whole table, and the badge shown for a status.
 */
module Dashboard {
  import Seqs
  import opened Text

  /** A submission. The rating is a floating-point value no logic reads and is not kept. */
  datatype Submission = Submission(
    id: nat,
    name: string,
    category: string,
    city: string,
    feeRange: string,
    submittedDate: string,
    status: string,
    experience: string,
    languages: seq<string>)

  /** The page's mock submissions, in source order. */
  function ArtistSubmissions(): seq<Submission>
  {
    [PriyaSharma(), ArjunDanceCrew(), DjMaya(), RajeshMotivator(), FusionBeats()]
  }

  function PriyaSharma(): Submission
  {
    Submission(1, "Priya Sharma", "Singer", "Mumbai", "₹25,000 - ₹50,000", "2025-06-23",
      "pending", "Experienced", ["Hindi", "English", "Marathi"])
  }

  function ArjunDanceCrew(): Submission
  {
    Submission(2, "Arjun Dance Crew", "Dancer", "Delhi", "₹40,000 - ₹80,000", "2025-06-22",
      "approved", "Expert", ["Hindi", "English", "Punjabi"])
  }

  function DjMaya(): Submission
  {
    Submission(3, "DJ Maya", "DJ", "Bangalore", "₹30,000 - ₹60,000", "2025-06-21",
      "pending", "Intermediate", ["English", "Kannada", "Hindi"])
  }

  function RajeshMotivator(): Submission
  {
    Submission(4, "Rajesh Motivator", "Speaker", "Pune", "₹15,000 - ₹25,000", "2025-06-20",
      "rejected", "Experienced", ["Hindi", "English", "Marathi"])
  }

  function FusionBeats(): Submission
  {
    Submission(5, "Fusion Beats", "DJ", "Goa", "₹50,000 - ₹100,000", "2025-06-19",
      "approved", "Expert", ["English", "Hindi", "Konkani"])
  }

  // ---------------------------------------------------------------------
  // The filter

  predicate MatchesSearch(s: Submission, term: string)
  {
    || Contains(ToLower(s.name), ToLower(term))
    || Contains(ToLower(s.category), ToLower(term))
    || Contains(ToLower(s.city), ToLower(term))
  }

  predicate MatchesStatus(s: Submission, statusFilter: string)
  {
    statusFilter == "all" || s.status == statusFilter
  }

  predicate Matches(s: Submission, term: string, statusFilter: string)
  {
    MatchesSearch(s, term) && MatchesStatus(s, statusFilter)
  }

  function MatchesBoth(term: string, statusFilter: string): Submission -> bool
  {
    (s: Submission) => Matches(s, term, statusFilter)
  }

  /** The rows of the table: the submissions meeting both criteria, in source order. */
  function FilteredSubmissions(data: seq<Submission>, term: string, statusFilter: string): (r: seq<Submission>)
    ensures Seqs.IsSubsequence(r, data)
    ensures forall i :: 0 <= i < |r| ==> Matches(r[i], term, statusFilter)
    ensures forall i :: 0 <= i < |data| && Matches(data[i], term, statusFilter) ==> data[i] in r
  {
    Seqs.FilterIsSubsequence(data, MatchesBoth(term, statusFilter));
    Seqs.Filter(data, MatchesBoth(term, statusFilter))
  }

  function HasStatus(status: string): Submission -> bool
  {
    (s: Submission) => s.status == status
  }

  /** With an empty search and the status "all", the whole table is shown. */
  lemma NoFilterShowsAll(data: seq<Submission>)
    ensures FilteredSubmissions(data, "", "all") == data
  {
    forall i | 0 <= i < |data| ensures Matches(data[i], "", "all") {
      ContainsEmpty(ToLower(data[i].name));
    }
    Seqs.FilterKeepsAll(data, MatchesBoth("", "all"));
  }

  /** With an empty search, a status other than "all" shows exactly the rows with that status. */
  lemma StatusOnly(data: seq<Submission>, status: string)
    requires status != "all"
    ensures FilteredSubmissions(data, "", status) == Seqs.Filter(data, HasStatus(status))
  {
    forall i | 0 <= i < |data| ensures MatchesBoth("", status)(data[i]) == HasStatus(status)(data[i]) {
      ContainsEmpty(ToLower(data[i].name));
    }
    Seqs.FilterAgree(data, MatchesBoth("", status), HasStatus(status));
  }

  /** Each submission is listed as often as it occurs in the data when it matches, otherwise never. */
  lemma FilteredMultiplicity(data: seq<Submission>, term: string, statusFilter: string, s: Submission)
    ensures multiset(FilteredSubmissions(data, term, statusFilter))[s] ==
      if Matches(s, term, statusFilter) then multiset(data)[s] else 0
  {
    Seqs.FilterMultiplicity(data, MatchesBoth(term, statusFilter), s);
  }

  /** The empty-state message shows exactly when no submission meets the criteria. */
  lemma NothingFoundIffNoMatch(data: seq<Submission>, term: string, statusFilter: string)
    ensures |FilteredSubmissions(data, term, statusFilter)| == 0 <==>
      forall i :: 0 <= i < |data| ==> !Matches(data[i], term, statusFilter)
  {
    forall i | 0 <= i < |data| && Matches(data[i], term, statusFilter)
      ensures |FilteredSubmissions(data, term, statusFilter)| > 0
    {
      assert data[i] in FilteredSubmissions(data, term, statusFilter);
    }
  }

  /** Typing more characters into the search box never brings a row back. */
  lemma LongerSearchNeverAdds(data: seq<Submission>, term: string, more: string, statusFilter: string)
    ensures Seqs.IsSubsequence(
      FilteredSubmissions(data, term + more, statusFilter), FilteredSubmissions(data, term, statusFilter))
  {
    assert (term + more)[0..|term|] == term;
    OccursContains(term + more, term, 0);
    ContainsToLower(term + more, term);
    var longer, shorter := ToLower(term + more), ToLower(term);
    forall i | 0 <= i < |data| && MatchesBoth(term + more, statusFilter)(data[i])
      ensures MatchesBoth(term, statusFilter)(data[i])
    {
      var s := data[i];
      if Contains(ToLower(s.name), longer) {
        ContainsTransitive(ToLower(s.name), longer, shorter);
      } else if Contains(ToLower(s.category), longer) {
        ContainsTransitive(ToLower(s.category), longer, shorter);
      } else {
        ContainsTransitive(ToLower(s.city), longer, shorter);
      }
    }
    Seqs.FilterNarrows(data, MatchesBoth(term, statusFilter), MatchesBoth(term + more, statusFilter));
  }

  // ---------------------------------------------------------------------
  // The counters

  datatype Stats = Stats(totalArtists: nat, pendingReview: nat, approved: nat)

  function StatusOf(s: Submission): string
  {
    s.status
  }

  /** How often `status` occurs in the status column. */
  function StatusCount(data: seq<Submission>, status: string): nat
  {
    multiset(Seqs.MapSeq(data, StatusOf))[status]
  }

  /** The three counters over the whole table. */
  function ComputeStats(data: seq<Submission>): (st: Stats)
    ensures st.totalArtists == |data|
    ensures st.pendingReview == StatusCount(data, "pending")
    ensures st.approved == StatusCount(data, "approved")
    ensures st.pendingReview + st.approved <= st.totalArtists
  {
    Seqs.FilterCountsKey(data, StatusOf, HasStatus("pending"), "pending");
    Seqs.FilterCountsKey(data, StatusOf, HasStatus("approved"), "approved");
    Seqs.DisjointFiltersBound(data, HasStatus("pending"), HasStatus("approved"));
    Stats(|data|, |Seqs.Filter(data, HasStatus("pending"))|, |Seqs.Filter(data, HasStatus("approved"))|)
  }

  /** Selecting "approved" with an empty search lists exactly as many rows as the approved counter. */
  lemma ApprovedFilterMatchesCounter(data: seq<Submission>)
    ensures |FilteredSubmissions(data, "", "approved")| == ComputeStats(data).approved
    ensures forall i :: 0 <= i < |FilteredSubmissions(data, "", "approved")| ==>
      FilteredSubmissions(data, "", "approved")[i].status == "approved"
  {
    StatusOnly(data, "approved");
  }

  // ---------------------------------------------------------------------
  // Status badges

  datatype BadgeStyle = Green | Red | Yellow | Secondary

  datatype Badge = Badge(caption: string, style: BadgeStyle)

  predicate IsKnownStatus(status: string)
  {
    status == "approved" || status == "rejected" || status == "pending"
  }

  function UpperChar(c: char): char
  {
    if 'a' <= c <= 'z' then (c as int - 32) as char else c
  }

  /** The word with its first letter in upper case. */
  function Capitalized(s: string): string
  {
    if |s| == 0 then s else [UpperChar(s[0])] + s[1..]
  }

  /**
   * The badge for a status: the three known statuses get their own colour
   * and a capitalised label; anything else is shown as it is, in the
   * neutral style.
   */
  function StatusBadge(status: string): (b: Badge)
    ensures IsKnownStatus(status) ==> b.caption == Capitalized(status)
    ensures !IsKnownStatus(status) ==> b.caption == status
    ensures b.style == Secondary <==> !IsKnownStatus(status)
    ensures status == "approved" ==> b.style == Green
    ensures status == "rejected" ==> b.style == Red
    ensures status == "pending" ==> b.style == Yellow
  {
    match status
    case "approved" => Badge("Approved", Green)
    case "rejected" => Badge("Rejected", Red)
    case "pending" => Badge("Pending", Yellow)
    case _ => Badge(status, Secondary)
  }
}
