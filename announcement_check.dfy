/**
 * `src/pages/UserAnnouncementCheck.jsx`: a participant looks up their
 * result in one announcement by id or name.
 */
module AnnouncementCheck {
  import opened Wrappers
  import opened JsStrings
  import opened Storage

  /** What the page shows after a search: the entry found, or the not-found notice. */
  datatype SearchResult = Found(entry: Entry) | NotFound

  /**
   * An entry matches when its id equals the query ignoring case, or its
   * name contains the query ignoring case; the query is not trimmed.
   */
  predicate Matches(e: Entry, query: string)
  {
    (Truthy(e.id) && Lower(e.id.value) == Lower(query))
    || (Truthy(e.name) && Contains(Lower(e.name.value), Lower(query)))
  }

  /** `allData.find(...)`: the first matching entry. */
  function FindEntry(entries: seq<Entry>, query: string): (r: Option<Entry>)
    ensures r.None? <==> forall i :: 0 <= i < |entries| ==> !Matches(entries[i], query)
    ensures r.Some? ==>
      exists k :: 0 <= k < |entries| && entries[k] == r.value && Matches(r.value, query)
        && forall j :: 0 <= j < k ==> !Matches(entries[j], query)
    decreases |entries|
  {
    if entries == [] then None
    else if Matches(entries[0], query) then Some(entries[0])
    else
      var r := FindEntry(entries[1..], query);
      assert r.Some? ==>
        exists k :: 0 <= k < |entries| && entries[k] == r.value && Matches(r.value, query)
          && forall j :: 0 <= j < k ==> !Matches(entries[j], query) by {
        if r.Some? {
          var k :| 0 <= k < |entries[1..]| && entries[1..][k] == r.value && Matches(r.value, query)
            && forall j :: 0 <= j < k ==> !Matches(entries[1..][j], query);
          assert entries[k + 1] == r.value;
        }
      }
      r
  }

  /** A search over passed entries followed by failed ones finds a passed entry first. */
  lemma {:induction false} PassedFirst(passed: seq<Entry>, failed: seq<Entry>, query: string)
    ensures FindEntry(passed + failed, query)
      == if FindEntry(passed, query).Some? then FindEntry(passed, query) else FindEntry(failed, query)
    decreases |passed|
  {
    if passed != [] {
      assert (passed + failed)[0] == passed[0];
      assert (passed + failed)[1..] == passed[1..] + failed;
      PassedFirst(passed[1..], failed, query);
    } else {
      assert passed + failed == failed;
    }
  }

  /** `announcements.find(a => a.id === selectedAnnouncement)`. */
  function FindAnnouncement(announcements: seq<Announcement>, id: Option<int>): (r: Option<Announcement>)
    ensures r.Some? ==> r.value in announcements && Some(r.value.id) == id
    ensures r.None? <==> forall i :: 0 <= i < |announcements| ==> Some(announcements[i].id) != id
    decreases |announcements|
  {
    if announcements == [] then None
    else if Some(announcements[0].id) == id then Some(announcements[0])
    else FindAnnouncement(announcements[1..], id)
  }

  /**
   * `handleSearch`: a blank query or an unknown announcement leaves the
   * shown result as it was; otherwise the first match among the passed
   * entries and then the failed ones, or the not-found notice.
   */
  function HandleSearch(announcements: seq<Announcement>, selected: Option<int>, query: string,
                        shown: Option<SearchResult>): (r: Option<SearchResult>)
    ensures Trim(query) == "" ==> r == shown
    ensures FindAnnouncement(announcements, selected).None? ==> r == shown
    ensures Trim(query) != "" && FindAnnouncement(announcements, selected).Some? ==>
      var a := FindAnnouncement(announcements, selected).value;
      r.Some?
      && (r.value.NotFound? <==> forall i :: 0 <= i < |a.passedData + a.failedData| ==> !Matches((a.passedData + a.failedData)[i], query))
      && (r.value.Found? ==> Matches(r.value.entry, query) && r.value.entry in a.passedData + a.failedData)
      && (r.value.Found? ==> Some(r.value.entry) == FindEntry(a.passedData + a.failedData, query))
      && (FindEntry(a.passedData, query).Some? ==> r == Some(Found(FindEntry(a.passedData, query).value)))
      && (FindEntry(a.passedData, query).None? && FindEntry(a.failedData, query).Some? ==>
            r == Some(Found(FindEntry(a.failedData, query).value)))
  {
    if Trim(query) == "" then shown
    else
      match FindAnnouncement(announcements, selected)
      case None => shown
      case Some(a) =>
        PassedFirst(a.passedData, a.failedData, query);
        match FindEntry(a.passedData + a.failedData, query)
        case Some(e) => Some(Found(e))
        case None => Some(NotFound)
  }
}
