/** The administrator's inbox (Frontend/src/pages/AdminMessages.jsx): the
    search and read/unread filters, six messages to a page, and the
    read and delete actions, which change only the page's own list (the
    page never tells the server). The read flags arrive with the list: the
    page draws them at random, so they are part of the input here. */
module AdminMessages {
  import opened Common

  datatype Message = Message(
    id: Id,
    firstName: string,
    lastName: string,
    email: string,
    phone: string,
    message: string,
    isRead: bool)

  // ---------------------------------------------------------------------
  // Search and filter
  // ---------------------------------------------------------------------

  /** An empty search matches everything; otherwise the lower-cased term
      must occur in the lower-cased full name, email or text. */
  predicate MatchesSearch(m: Message, term: string) {
    term == ""
    || Contains(ToLower(m.firstName + " " + m.lastName), ToLower(term))
    || Contains(ToLower(m.email), ToLower(term))
    || Contains(ToLower(m.message), ToLower(term))
  }

  predicate MatchesFilter(m: Message, filterStatus: string) {
    filterStatus == "all" || (filterStatus == "read" && m.isRead) || (filterStatus == "unread" && !m.isRead)
  }

  function MatchesBy(term: string, filterStatus: string): Message -> bool {
    (m: Message) => MatchesSearch(m, term) && MatchesFilter(m, filterStatus)
  }

  /** `filteredMessages`, in list order. */
  function Filtered(messages: seq<Message>, term: string, filterStatus: string): (r: seq<Message>)
    ensures forall m :: m in r <==> m in messages && MatchesSearch(m, term) && MatchesFilter(m, filterStatus)
  {
    Filter(messages, MatchesBy(term, filterStatus))
  }

  lemma LowerCharIdempotent(c: char)
    ensures LowerChar(LowerChar(c)) == LowerChar(c)
    ensures LowerChar(UpperChar(c)) == LowerChar(c)
  {
  }

  /** Lower-casing and upper-casing the term first changes no match. */
  lemma SearchIgnoresCase(m: Message, term: string)
    ensures MatchesSearch(m, ToLower(term)) <==> MatchesSearch(m, term)
    ensures MatchesSearch(m, ToUpper(term)) <==> MatchesSearch(m, term)
  {
    forall i | 0 <= i < |term|
      ensures ToLower(ToLower(term))[i] == ToLower(term)[i] && ToLower(ToUpper(term))[i] == ToLower(term)[i]
    {
      LowerCharIdempotent(term[i]);
    }
    assert ToLower(ToLower(term)) == ToLower(term);
    assert ToLower(ToUpper(term)) == ToLower(term);
  }

  /** With no search and the "all" filter, the whole list shows. */
  lemma EverythingShown(messages: seq<Message>)
    ensures Filtered(messages, "", "all") == messages
  {
    forall i | 0 <= i < |messages|
      ensures MatchesBy("", "all")(messages[i])
    {
      assert MatchesSearch(messages[i], "") && MatchesFilter(messages[i], "all");
    }
    FilterAll(messages, MatchesBy("", "all"));
  }

  /** Under one search, the read and the unread views split the "all"
      view between them. */
  lemma {:induction false} ReadUnreadSplit(messages: seq<Message>, term: string)
    ensures |Filtered(messages, term, "read")| + |Filtered(messages, term, "unread")| ==
      |Filtered(messages, term, "all")|
  {
    if messages != [] {
      ReadUnreadSplit(messages[1..], term);
    }
  }

  // ---------------------------------------------------------------------
  // Pages
  // ---------------------------------------------------------------------

  const PerPage: nat := 6

  /** `Math.ceil(n / 6)`: the fewest pages of six that hold `n` messages. */
  function TotalPages(n: nat): (t: nat)
    ensures n <= t * PerPage
    ensures t > 0 ==> (t - 1) * PerPage < n
  {
    (n + PerPage - 1) / PerPage
  }

  /** `slice((page - 1) * 6, page * 6)`, clamped to the list as JavaScript
      clamps it. */
  function Page(s: seq<Message>, page: nat): (r: seq<Message>)
    requires page >= 1
    ensures |r| <= PerPage
    ensures forall k :: 0 <= k < |r| ==> (page - 1) * PerPage + k < |s| && r[k] == s[(page - 1) * PerPage + k]
    ensures r == [] <==> page > TotalPages(|s|)
    ensures page < TotalPages(|s|) ==> |r| == PerPage
  {
    var start := (page - 1) * PerPage;
    var end := page * PerPage;
    if start >= |s| then [] else s[start..if end <= |s| then end else |s|]
  }

  /** Pages 1 to `k` one after another. */
  function Pages(s: seq<Message>, k: nat): seq<Message> {
    if k == 0 then [] else Pages(s, k - 1) + Page(s, k)
  }

  /** The first `k` pages are the list's first `6k` messages. */
  lemma {:induction false} PagesArePrefix(s: seq<Message>, k: nat)
    ensures Pages(s, k) == s[..if k * PerPage <= |s| then k * PerPage else |s|]
  {
    if k > 0 {
      PagesArePrefix(s, k - 1);
    }
  }

  /** All the pages together are the filtered list, each message once and
      in order. */
  lemma PagesCoverAll(s: seq<Message>)
    ensures Pages(s, TotalPages(|s|)) == s
  {
    PagesArePrefix(s, TotalPages(|s|));
  }

  /** The message at index `i` is on page `i / 6 + 1`, at place `i % 6`. */
  lemma PageOfIndex(s: seq<Message>, i: nat)
    requires i < |s|
    ensures i % PerPage < |Page(s, i / PerPage + 1)| && Page(s, i / PerPage + 1)[i % PerPage] == s[i]
  {
  }

  /** The page actually shown: the current page, brought back to the last
      page when the list has shrunk below it. */
  function ShownPage(page: nat, n: nat): (q: nat)
    requires page >= 1
    ensures q >= 1
    ensures n > 0 ==> q <= TotalPages(n)
    ensures page <= TotalPages(n) ==> q == page
  {
    if page <= TotalPages(n) || TotalPages(n) == 0 then page else TotalPages(n)
  }

  /** With the page brought back, a list with matches never shows an empty
      page. */
  lemma ShownPageNotEmpty(s: seq<Message>, page: nat)
    requires page >= 1 && |s| > 0
    ensures Page(s, ShownPage(page, |s|)) != []
  {
  }

  // ---------------------------------------------------------------------
  // Read and delete
  // ---------------------------------------------------------------------

  /** `messages.map(m => m._id === id ? {...m, isRead: true} : m)`. */
  function MarkedRead(messages: seq<Message>, id: Id): (r: seq<Message>)
    ensures |r| == |messages|
    ensures forall i :: 0 <= i < |r| ==> r[i].id == messages[i].id
    ensures forall i :: 0 <= i < |r| && messages[i].id == id ==> r[i] == messages[i].(isRead := true)
    ensures forall i :: 0 <= i < |r| && messages[i].id != id ==> r[i] == messages[i]
  {
    seq(|messages|, i requires 0 <= i < |messages| =>
      if messages[i].id == id then messages[i].(isRead := true) else messages[i])
  }

  /** After marking, the message is under "read" and leaves "unread". */
  lemma MarkedReadLeavesUnread(messages: seq<Message>, id: Id, term: string)
    ensures forall m :: m in Filtered(MarkedRead(messages, id), term, "unread") ==> m.id != id
    ensures forall m :: m in MarkedRead(messages, id) && m.id == id ==> m.isRead
  {
  }

  function NotId(id: Id): Message -> bool {
    (m: Message) => m.id != id
  }

  /** `messages.filter(m => m._id !== id)`. */
  function Deleted(messages: seq<Message>, id: Id): (r: seq<Message>)
    ensures forall m :: m in r <==> m in messages && m.id != id
  {
    Filter(messages, NotId(id))
  }

  // ---------------------------------------------------------------------
  // The page
  // ---------------------------------------------------------------------

  class Inbox {
    var messages: seq<Message>
    var searchTerm: string
    var filterStatus: string
    var currentPage: nat

    ghost predicate Valid()
      reads this
    {
      currentPage >= 1
    }

    constructor ()
      ensures Valid() && messages == [] && searchTerm == "" && filterStatus == "all" && currentPage == 1
    {
      messages := [];
      searchTerm := "";
      filterStatus := "all";
      currentPage := 1;
    }

    function Visible(): seq<Message>
      reads this
    {
      Filtered(messages, searchTerm, filterStatus)
    }

    /** `currentMessages` as the page computes it, from the stored page. */
    function CurrentMessagesAsWritten(): (r: seq<Message>)
      requires Valid()
      reads this
      ensures |r| <= PerPage
      ensures r == [] <==> currentPage > TotalPages(|Visible()|)
    {
      Page(Visible(), currentPage)
    }

    /** The messages shown, from the page brought back into range. */
    function CurrentMessages(): (r: seq<Message>)
      requires Valid()
      reads this
      ensures Visible() != [] ==> r != []
      ensures currentPage <= TotalPages(|Visible()|) ==> r == CurrentMessagesAsWritten()
    {
      ShownPageNotEmptyIfAny(Visible(), currentPage);
      Page(Visible(), ShownPage(currentPage, |Visible()|))
    }

    /** The page controls: drawn only in the branch that lists messages,
        and only when there is more than one page. So they show exactly
        when the stored page is one of the pages and there are several. */
    function PaginationShown(): (r: bool)
      requires Valid()
      reads this
      ensures r <==> 1 < TotalPages(|Visible()|) && currentPage <= TotalPages(|Visible()|)
    {
      CurrentMessagesAsWritten() != [] && TotalPages(|Visible()|) > 1
    }

    /** The fetch effect: the list replaces the current one. */
    method Loaded(fetched: seq<Message>)
      modifies this`messages
      ensures messages == fetched
    {
      messages := fetched;
    }

    /** The search box; the page number is kept. */
    method SetSearchTerm(term: string)
      modifies this`searchTerm
      ensures searchTerm == term
    {
      searchTerm := term;
    }

    /** The filter drop-down; the page number is kept. */
    method SetFilterStatus(filter: string)
      modifies this`filterStatus
      ensures filterStatus == filter
    {
      filterStatus := filter;
    }

    /** `handleMarkAsRead`. */
    method HandleMarkAsRead(id: Id)
      modifies this`messages
      ensures messages == MarkedRead(old(messages), id)
    {
      messages := MarkedRead(messages, id);
    }

    /** `handleDelete`. */
    method HandleDelete(id: Id)
      modifies this`messages
      ensures messages == Deleted(old(messages), id)
    {
      messages := Deleted(messages, id);
    }

    /** A numbered button: page `index + 1` of the current total. */
    method Paginate(index: nat)
      requires Valid() && index < TotalPages(|Visible()|)
      modifies this`currentPage
      ensures Valid() && currentPage == index + 1
    {
      currentPage := index + 1;
    }

    /** The "<" button: one page back, never below the first. */
    method PreviousPage()
      requires Valid()
      modifies this`currentPage
      ensures Valid()
      ensures currentPage == if old(currentPage) > 1 then old(currentPage) - 1 else old(currentPage)
    {
      if currentPage > 1 {
        currentPage := currentPage - 1;
      }
    }

    /** The ">" button: one page on, never past the last. */
    method NextPage()
      requires Valid()
      modifies this`currentPage
      ensures Valid()
      ensures currentPage ==
        if old(currentPage) < TotalPages(|Visible()|) then old(currentPage) + 1 else old(currentPage)
    {
      if currentPage < TotalPages(|Visible()|) {
        currentPage := currentPage + 1;
      }
    }
  }

  lemma ShownPageNotEmptyIfAny(s: seq<Message>, page: nat)
    requires page >= 1
    ensures s != [] ==> Page(s, ShownPage(page, |s|)) != []
  {
    if s != [] {
      ShownPageNotEmpty(s, page);
    }
  }

  /** A search or filter that leaves matches while the stored page lies
      past the last page: the page as written is empty, so the empty state
      is drawn and the page controls with it are not, although every page
      from 1 to the last holds messages. */
  lemma StrandedPage(inbox: Inbox)
    requires inbox.Valid() && |inbox.Visible()| >= 1
    requires inbox.currentPage > TotalPages(|inbox.Visible()|)
    ensures inbox.CurrentMessagesAsWritten() == [] && !inbox.PaginationShown()
    ensures TotalPages(|inbox.Visible()|) >= 1
    ensures forall q :: 1 <= q <= TotalPages(|inbox.Visible()|) ==> Page(inbox.Visible(), q) != []
  {
  }
}
