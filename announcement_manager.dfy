/**
 * `src/pages/AnnouncementManager.jsx`: the admin page that keeps the
 * announcement list. Every change is written through to localStorage, so
 * the stored list and the page's list agree after each add or delete.
 */
module AnnouncementManager {
  import opened Wrappers
  import opened Lists
  import opened Storage

  const TitleRequired := "Judul pengumuman harus diisi"
  const DefaultKind := "Magang"

  /** `newAnnouncement`: the form for the next announcement. */
  datatype Draft = Draft(title: string, kind: string, passedData: seq<Entry>, failedData: seq<Entry>)

  const EmptyDraft := Draft("", DefaultKind, [], [])

  function Passed(id: string, name: string, note: string): Entry
  {
    Entry(Some(id), Some(name), "Lolos", note)
  }

  function Failed(id: string, name: string, note: string): Entry
  {
    Entry(Some(id), Some(name), "Tidak Lolos", note)
  }

  /** The two announcements the page stores when it finds none. */
  const Seed := [
    Announcement(1, "Pengumuman Magang Batch 5", "Magang", "2025-11-01",
      [Passed("SP001", "Ahmad Rizki", "Selamat! Anda diterima sebagai Software Engineer Intern"),
       Passed("SP002", "Siti Nurhaliza", "Selamat! Anda diterima sebagai UI/UX Designer Intern"),
       Passed("SP005", "Budi Santoso", "Selamat! Anda diterima sebagai Data Analyst Intern")],
      [Failed("SP003", "Dewi Lestari", "Mohon maaf, silakan coba lagi di batch berikutnya"),
       Failed("SP004", "Eko Prasetyo", "Mohon maaf, silakan coba lagi di batch berikutnya")]),
    Announcement(2, "Beasiswa SmartPath 2025", "Beasiswa", "2025-10-15",
      [Passed("BS001", "Rina Wijaya", "Selamat! Anda mendapatkan beasiswa penuh"),
       Passed("BS003", "Fajar Ramadan", "Selamat! Anda mendapatkan beasiswa 50%")],
      [Failed("BS002", "Linda Kusuma", "Mohon maaf, kuota beasiswa sudah penuh")])
  ]

  /** The announcement a non-empty draft becomes, with the given id and date. */
  function FromDraft(draft: Draft, id: int, date: string): (r: Announcement)
    ensures r.id == id && r.date == date
    ensures r.title == draft.title && r.kind == draft.kind
    ensures r.passedData == draft.passedData && r.failedData == draft.failedData
  {
    Announcement(id, draft.title, draft.kind, date, draft.passedData, draft.failedData)
  }

  predicate IsNotAnnouncement(id: int, a: Announcement) { a.id != id }

  /** `announcements.filter(a => a.id !== id)`. */
  function WithoutAnnouncement(announcements: seq<Announcement>, id: int): (r: seq<Announcement>)
    ensures forall a :: a in r <==> a in announcements && a.id != id
    ensures IsSubsequence(r, announcements)
  {
    KeepSubsequence(announcements, a => IsNotAnnouncement(id, a));
    Keep(announcements, a => IsNotAnnouncement(id, a))
  }

  /** Deleting an announcement just added, under a fresh id, restores the list. */
  lemma DeleteUndoesAdd(announcements: seq<Announcement>, draft: Draft, id: int, date: string)
    requires forall i :: 0 <= i < |announcements| ==> announcements[i].id != id
    ensures WithoutAnnouncement(announcements + [FromDraft(draft, id, date)], id) == announcements
  {
    var p := a => IsNotAnnouncement(id, a);
    KeepAppend(announcements, [FromDraft(draft, id, date)], p);
    KeepAll(announcements, p);
    assert Keep([FromDraft(draft, id, date)], p) == [] + Keep([], p);
  }

  /** The page: its announcement list and draft, over the browser's storage. */
  class Page {
    var announcements: seq<Announcement>
    var draft: Draft
    const browser: Browser

    /** The stored list is the page's list. */
    predicate Synced()
      reads this, browser
    {
      AnnouncementsKey in browser.local && browser.local[AnnouncementsKey] == AnnouncementsDoc(announcements)
    }

    /** The page before its mount effect: no announcements, an empty draft. */
    constructor (browser: Browser)
      requires browser.Valid()
      ensures this.browser == browser && announcements == [] && draft == EmptyDraft
    {
      this.browser := browser;
      announcements := [];
      draft := EmptyDraft;
    }

    /**
     * The mount effect: a stored announcement list is taken as it is; with
     * nothing stored the seed is taken and stored. Stored text that is not
     * an announcement list leaves the page's list and storage untouched.
     */
    method Load()
      requires browser.Valid()
      modifies this, browser
      ensures browser.Valid() && browser.jar == old(browser.jar) && browser.location == old(browser.location)
      ensures draft == old(draft)
      ensures !Present(old(browser.local), AnnouncementsKey) ==>
        announcements == Seed && browser.local == old(browser.local)[AnnouncementsKey := AnnouncementsDoc(Seed)]
      ensures Present(old(browser.local), AnnouncementsKey) ==> browser.local == old(browser.local)
      ensures Present(old(browser.local), AnnouncementsKey) && old(browser.local)[AnnouncementsKey].AnnouncementsDoc? ==>
        announcements == old(browser.local)[AnnouncementsKey].announcements
      ensures Present(old(browser.local), AnnouncementsKey) && !old(browser.local)[AnnouncementsKey].AnnouncementsDoc? ==>
        announcements == old(announcements)
      ensures (!Present(old(browser.local), AnnouncementsKey) || old(browser.local)[AnnouncementsKey].AnnouncementsDoc?) ==> Synced()
    {
      if Present(browser.local, AnnouncementsKey) {
        var saved := browser.local[AnnouncementsKey];
        if saved.AnnouncementsDoc? {
          announcements := saved.announcements;
        }
      } else {
        announcements := Seed;
        browser.SetItem(AnnouncementsKey, AnnouncementsDoc(Seed));
      }
    }

    /** `saveAnnouncements(data)`: stored first, then taken as the page's list. */
    method Save(data: seq<Announcement>)
      requires browser.Valid()
      modifies this, browser
      ensures browser.Valid() && browser.jar == old(browser.jar) && browser.location == old(browser.location)
      ensures browser.local == old(browser.local)[AnnouncementsKey := AnnouncementsDoc(data)]
      ensures announcements == data && draft == old(draft)
      ensures Synced()
    {
      browser.SetItem(AnnouncementsKey, AnnouncementsDoc(data));
      announcements := data;
    }

    /**
     * `addAnnouncement`: without a title nothing changes and the error is
     * reported; otherwise the draft, stamped with the id and date given,
     * is appended, stored, and the draft is reset.
     */
    method AddAnnouncement(now: int, today: string) returns (error: Option<string>)
      requires browser.Valid()
      modifies this, browser
      ensures browser.Valid() && browser.jar == old(browser.jar) && browser.location == old(browser.location)
      ensures old(draft).title == "" ==>
        error == Some(TitleRequired) && announcements == old(announcements) && draft == old(draft)
        && browser.local == old(browser.local)
      ensures old(draft).title != "" ==>
        error == None && announcements == old(announcements) + [FromDraft(old(draft), now, today)]
        && draft == EmptyDraft && Synced()
        && browser.local == old(browser.local)[AnnouncementsKey := AnnouncementsDoc(announcements)]
    {
      if draft.title == "" {
        return Some(TitleRequired);
      }
      var updated := announcements + [FromDraft(draft, now, today)];
      Save(updated);
      draft := EmptyDraft;
      error := None;
    }

    /** `deleteAnnouncement(id)`: every announcement with that id leaves the list, which is stored. */
    method DeleteAnnouncement(id: int)
      requires browser.Valid()
      modifies this, browser
      ensures browser.Valid() && browser.jar == old(browser.jar) && browser.location == old(browser.location)
      ensures announcements == WithoutAnnouncement(old(announcements), id) && draft == old(draft)
      ensures Synced() && browser.local == old(browser.local)[AnnouncementsKey := AnnouncementsDoc(announcements)]
    {
      Save(WithoutAnnouncement(announcements, id));
    }
  }
}
