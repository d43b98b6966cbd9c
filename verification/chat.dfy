/** The conversation engine: one turn of the chat endpoint as a pure step from
    (session, credentials, message) to (new session, reply, notification sent).
    The intent classifier, the general answerer, the discovery pipeline and the
    access check are collaborators passed in as functions. */
module Chat {
  import opened Wrappers
  import opened Text
  import opened Items
  import Graph

  datatype Stage = Start | AwaitingQuery | AwaitingSelection

  /** The per-user session: the stage, `last_query` and `found_files`. */
  datatype Session = Session(stage: Stage, lastQuery: Option<string>, foundFiles: seq<Item>)

  /** A session with nothing stored in it; an absent stage reads as Start. */
  const Fresh: Session := Session(Start, None, [])

  /** Entering AwaitingSelection needs candidates to choose from and the query
      they answer. */
  predicate Invariant(s: Session) {
    s.stage == AwaitingSelection ==> |s.foundFiles| > 0 && s.lastQuery.Some?
  }

  /** The access token and the signed-in user's email as the session holds them. */
  datatype Credential = Credential(token: Option<string>, userEmail: Option<string>)

  predicate LoggedIn(cred: Credential) {
    Truthy(cred.token) && Truthy(cred.userEmail)
  }

  /** The classifier's JSON answer: its `intent` and `data` fields, if present. */
  datatype IntentReply = IntentReply(intent: Option<string>, data: Option<string>)

  const FileSearch: string := "file_search"
  const GeneralResponse: string := "general_response"

  /** What the classifier returns when its backing model fails. */
  const Degraded: IntentReply := IntentReply(Some(GeneralResponse), Some(""))

  datatype Collaborators = Collaborators(
    classify: string -> IntentReply,
    answer: string -> string,
    search: string -> seq<Item>,
    hasAccess: (string, string, Option<string>) -> bool)

  /** One line of the numbered candidate list. */
  datatype Entry = Entry(number: nat, name: string)

  datatype Reply =
    | NotLoggedIn
    | Greeting
    | General(text: string)
    | NotUnderstood
    | NoFiles
    | Listing(entries: seq<Entry>)
    | Granted(url: string, email: string)
    | Denied
    | DeniedOrGone
    | OutOfRange
    | NotANumber

  /** The link email `send_notification_email` is asked to send. */
  datatype Notification = Notification(to: string, fileName: string, fileUrl: string)

  datatype Turn = Turn(session: Session, reply: Reply, sent: Option<Notification>)

  /** At most this many candidates are listed. */
  const ListLimit: nat := 5

  /* ---------------- Reply text ---------------- */

  function EntryLine(e: Entry): string {
    ShowNat(e.number) + ". " + e.name
  }

  /** `piece` appears in `text` starting at position `k`. */
  predicate OccursAt(piece: string, text: string, k: int) {
    0 <= k <= |text| - |piece| && text[k..k + |piece|] == piece
  }

  /** `piece` appears somewhere in `text` as a contiguous run. */
  predicate Occurs(piece: string, text: string) {
    exists k :: 0 <= k <= |text| && OccursAt(piece, text, k)
  }

  lemma OccursAfter(piece: string, pre: string, text: string)
    requires Occurs(piece, text)
    ensures Occurs(piece, pre + text)
  {
    var k :| 0 <= k <= |text| && OccursAt(piece, text, k);
    assert (pre + text)[|pre| + k..|pre| + k + |piece|] == piece;
    assert OccursAt(piece, pre + text, |pre| + k);
  }

  lemma OccursBefore(piece: string, text: string, post: string)
    requires Occurs(piece, text)
    ensures Occurs(piece, text + post)
  {
    var k :| 0 <= k <= |text| && OccursAt(piece, text, k);
    assert (text + post)[k..k + |piece|] == piece;
    assert OccursAt(piece, text + post, k);
  }

  /** The lines of the numbered list, joined by newlines; every entry's line
      appears in the result. */
  function JoinLines(es: seq<Entry>): (text: string)
    ensures forall i :: 0 <= i < |es| ==> Occurs(EntryLine(es[i]), text)
    decreases |es|
  {
    if es == [] then ""
    else
      var first := EntryLine(es[0]);
      assert OccursAt(first, first, 0);
      OccursBefore(first, first, "\n" + JoinLines(es[1..]));
      assert first + ("\n" + JoinLines(es[1..])) == first + "\n" + JoinLines(es[1..]);
      if |es| == 1 then first
      else
        var rest := JoinLines(es[1..]);
        forall i | 1 <= i < |es|
          ensures Occurs(EntryLine(es[i]), first + "\n" + rest)
        {
          assert es[1..][i - 1] == es[i];
          OccursAfter(EntryLine(es[i]), first + "\n", rest);
        }
        first + "\n" + rest
  }

  /** The listing reply shows the line "N. name" of every listed entry. */
  lemma ListingShowsEntries(es: seq<Entry>)
    ensures forall i :: 0 <= i < |es| ==> Occurs(EntryLine(es[i]), Render(Listing(es)))
  {
    var header := "Here are some files I found:\n";
    var footer := "\n\nPlease reply with the number of the file you want.";
    assert Render(Listing(es)) == header + JoinLines(es) + footer;
    forall i | 0 <= i < |es|
      ensures Occurs(EntryLine(es[i]), Render(Listing(es)))
    {
      OccursAfter(EntryLine(es[i]), header, JoinLines(es));
      OccursBefore(EntryLine(es[i]), header + JoinLines(es), footer);
    }
  }

  const GrantedPrefix: string := "\U{2705} You have access! Here\U{2019}s your file link: "

  /** The success reply: the file link comes right after the fixed prefix. */
  function GrantedText(url: string, email: string): (text: string)
    ensures |GrantedPrefix| + |url| <= |text| && text[|GrantedPrefix|..|GrantedPrefix| + |url|] == url
  {
    var rest := "\n\U{1F4E7} Sent to your email: " + email
      + "\n\n\U{1F4AC} Do you need anything else? Or are you fine for now?";
    assert (GrantedPrefix + url + rest)[|GrantedPrefix|..|GrantedPrefix| + |url|] == url;
    GrantedPrefix + url + rest
  }

  /** The exact text the endpoint returns for each reply. The answerer's text is
      passed through verbatim, and the success reply carries the file link right
      after its fixed prefix. */
  function Render(r: Reply): (text: string)
    ensures r.General? ==> text == r.text
    ensures r.Granted? ==>
      |GrantedPrefix| + |r.url| <= |text| && text[|GrantedPrefix|..|GrantedPrefix| + |r.url|] == r.url
  {
    match r
    case NotLoggedIn => "\U{274C} You are not logged in."
    case Greeting => "Hi there! \U{1F44B}\nWhat file are you looking for today or how can I help?"
    case General(text) => text
    case NotUnderstood =>
      "\U{26A0}\U{FE0F} I couldn\U{2019}t understand your request. Please rephrase or provide more detail."
    case NoFiles => "\U{1F4C1} No files found for your request. Try being more specific."
    case Listing(es) =>
      "Here are some files I found:\n" + JoinLines(es) + "\n\nPlease reply with the number of the file you want."
    case Granted(url, email) => GrantedText(url, email)
    case Denied => "\U{274C} You don\U{2019}t have access to this file."
    case DeniedOrGone => "\U{274C} You don\U{2019}t have access to this file or it no longer exists."
    case OutOfRange => "\U{274C} Invalid selection. Please reply with a valid number from the list."
    case NotANumber => "\U{274C} Please enter a valid number from the list."
  }

  /* ---------------- Turn logic ---------------- */

  /** The numbered list shown to the user: the first five candidates, numbered from 1. */
  function Numbered(files: seq<Item>): (es: seq<Entry>)
    ensures |es| == if |files| < ListLimit then |files| else ListLimit
    ensures forall i :: 0 <= i < |es| ==> es[i] == Entry(i + 1, files[i].name)
  {
    var n := if |files| < ListLimit then |files| else ListLimit;
    seq(n, i requires 0 <= i < n => Entry(i + 1, files[i].name))
  }

  /** The position of the first candidate whose name equals the query, ignoring case. */
  function FirstExactMatch(files: seq<Item>, query: string, from: nat): (r: Option<nat>)
    requires from <= |files|
    ensures r.Some? ==> from <= r.value < |files| && EqualsIgnoreCase(files[r.value].name, query)
    ensures r.Some? ==> forall j :: from <= j < r.value ==> !EqualsIgnoreCase(files[j].name, query)
    ensures r.None? ==> forall j :: from <= j < |files| ==> !EqualsIgnoreCase(files[j].name, query)
    decreases |files| - from
  {
    if from == |files| then None
    else if EqualsIgnoreCase(files[from].name, query) then Some(from)
    else FirstExactMatch(files, query, from + 1)
  }

  /** Checks access to `f` and, if granted, sends the link; either way the
      conversation goes back to waiting for a query. */
  function Resolve(c: Collaborators, s: Session, email: string, f: Item, denied: Reply): (t: Turn)
    ensures t.session == s.(stage := AwaitingQuery)
    ensures c.hasAccess(f.id, email, SiteIdOf(f)) ==>
      t.reply == Granted(f.webUrl, email) && t.sent == Some(Notification(email, f.name, f.webUrl))
    ensures !c.hasAccess(f.id, email, SiteIdOf(f)) ==> t.reply == denied && t.sent == None
  {
    var s' := s.(stage := AwaitingQuery);
    if c.hasAccess(f.id, email, SiteIdOf(f)) then
      Turn(s', Granted(f.webUrl, email), Some(Notification(email, f.name, f.webUrl)))
    else
      Turn(s', denied, None)
  }

  /** The file-search branch: store the query and the ranked candidates, then
      resolve the first exact name match or list the candidates. */
  function SearchTurn(c: Collaborators, s: Session, email: string, query: string): (t: Turn)
    ensures t.session.lastQuery == Some(query) && t.session.foundFiles == c.search(query)
    ensures c.search(query) == [] ==> t.reply == NoFiles && t.session.stage == s.stage && t.sent == None
    ensures forall k ::
      (&& 0 <= k < |c.search(query)| && EqualsIgnoreCase(c.search(query)[k].name, query)
       && (forall j :: 0 <= j < k ==> !EqualsIgnoreCase(c.search(query)[j].name, query)))
      ==> t == Resolve(c, s.(lastQuery := Some(query), foundFiles := c.search(query)), email, c.search(query)[k], Denied)
    ensures c.search(query) != [] && (forall k :: 0 <= k < |c.search(query)| ==> !EqualsIgnoreCase(c.search(query)[k].name, query)) ==>
      t.session.stage == AwaitingSelection && t.reply == Listing(Numbered(c.search(query))) && t.sent == None
  {
    var files := c.search(query);
    var s1 := s.(lastQuery := Some(query), foundFiles := files);
    if files == [] then Turn(s1, NoFiles, None)
    else match FirstExactMatch(files, query, 0)
      case Some(k) => Resolve(c, s1, email, files[k], Denied)
      case None => Turn(s1.(stage := AwaitingSelection), Listing(Numbered(files)), None)
  }

  /** A turn in stage AwaitingQuery. */
  function QueryTurn(c: Collaborators, s: Session, email: string, message: string): (t: Turn)
    ensures c.classify(message).intent == Some(GeneralResponse) ==>
      t == Turn(s, General(c.answer(message)), None)
    ensures var r := c.classify(message);
      r.intent != Some(GeneralResponse) && !(r.intent == Some(FileSearch) && Truthy(r.data)) ==>
      t == Turn(s, NotUnderstood, None)
    ensures var r := c.classify(message);
      r.intent == Some(FileSearch) && Truthy(r.data) ==> t == SearchTurn(c, s, email, r.data.value)
  {
    var r := c.classify(message);
    if r.intent == Some(GeneralResponse) then Turn(s, General(c.answer(message)), None)
    else if r.intent == Some(FileSearch) && Truthy(r.data) then SearchTurn(c, s, email, r.data.value)
    else Turn(s, NotUnderstood, None)
  }

  /** A turn in stage AwaitingSelection: the message should be a 1-based position
      in the stored candidates. */
  function SelectionTurn(c: Collaborators, s: Session, email: string, message: string): (t: Turn)
    ensures ParseInt(message).None? ==> t == Turn(s, NotANumber, None)
    ensures ParseInt(message).Some? && !(1 <= ParseInt(message).value <= |s.foundFiles|) ==>
      t == Turn(s, OutOfRange, None)
    ensures ParseInt(message).Some? && 1 <= ParseInt(message).value <= |s.foundFiles| ==>
      t == Resolve(c, s, email, s.foundFiles[ParseInt(message).value - 1], DeniedOrGone)
  {
    match ParseInt(message)
    case None => Turn(s, NotANumber, None)
    case Some(n) =>
      var idx := n - 1;
      if idx < 0 || idx >= |s.foundFiles| then Turn(s, OutOfRange, None)
      else Resolve(c, s, email, s.foundFiles[idx], DeniedOrGone)
  }

  /** `chat()`: one turn of the conversation. */
  function Chat(c: Collaborators, s: Session, cred: Credential, message: string): (t: Turn)
    ensures !LoggedIn(cred) ==> t == Turn(s, NotLoggedIn, None)
    ensures LoggedIn(cred) && s.stage == Start ==>
      t == Turn(s.(stage := AwaitingQuery), Greeting, None)
    ensures Invariant(s) ==> Invariant(t.session)
    // a link is mailed only to the signed-in user, only for a file it reports as granted
    ensures t.sent.Some? ==>
      && LoggedIn(cred) && t.sent.value.to == cred.userEmail.value
      && t.reply == Granted(t.sent.value.fileUrl, cred.userEmail.value)
    ensures t.session.stage == AwaitingSelection ==>
      s.stage == AwaitingSelection || t.reply.Listing?
  {
    if !LoggedIn(cred) then Turn(s, NotLoggedIn, None)
    else
      var email := cred.userEmail.value;
      match s.stage
      case Start => Turn(s.(stage := AwaitingQuery), Greeting, None)
      case AwaitingQuery => QueryTurn(c, s, email, message)
      case AwaitingSelection => SelectionTurn(c, s, email, message)
  }

  /** The landing page: `home()` sends a visitor without an email to log in and
      otherwise restarts the conversation. */
  datatype Landing = RedirectToLogin | ChatPage(session: Session)

  function Home(s: Session, userEmail: Option<string>): (r: Landing)
    ensures !Truthy(userEmail) <==> r == RedirectToLogin
    ensures r.ChatPage? ==>
      r.session.stage == Start && r.session.foundFiles == [] && r.session.lastQuery == s.lastQuery
  {
    if !Truthy(userEmail) then RedirectToLogin
    else ChatPage(s.(stage := Start, foundFiles := []))
  }

  /* ---------------- Properties across turns ---------------- */

  /** The first turn is a greeting whatever the message and whatever the
      collaborators would have said. */
  lemma StartIgnoresMessage(c1: Collaborators, c2: Collaborators, s: Session, cred: Credential, m1: string, m2: string)
    requires LoggedIn(cred) && s.stage == Start
    ensures Chat(c1, s, cred, m1) == Chat(c2, s, cred, m2)
    ensures Chat(c1, s, cred, m1).reply == Greeting && Chat(c1, s, cred, m1).session.stage == AwaitingQuery
  {
  }

  /** Opening the chat page restarts the conversation: the next message is
      answered with the greeting and the session is ready for a query. */
  lemma HomeThenGreeting(c: Collaborators, s: Session, cred: Credential, message: string)
    requires LoggedIn(cred)
    ensures Home(s, cred.userEmail).ChatPage?
    ensures var t := Chat(c, Home(s, cred.userEmail).session, cred, message);
      t.reply == Greeting && t.session.stage == AwaitingQuery && t.session.foundFiles == [] && Invariant(t.session)
  {
  }

  /** When the classifier fails, the turn degrades to a general answer and the
      session is left as it was. */
  lemma DegradedClassifierAnswers(c: Collaborators, s: Session, cred: Credential, message: string)
    requires LoggedIn(cred) && s.stage == AwaitingQuery
    requires c.classify(message) == Degraded
    ensures Chat(c, s, cred, message) == Turn(s, General(c.answer(message)), None)
  {
  }

  /** In stage AwaitingSelection, the rendering of position `k + 1` (with any
      surrounding whitespace) selects the `k`-th stored file. */
  lemma SelectByNumber(c: Collaborators, s: Session, cred: Credential, k: nat, before: string, after: string)
    requires LoggedIn(cred) && s.stage == AwaitingSelection && k < |s.foundFiles|
    requires AllSpace(before) && AllSpace(after)
    requires |ShowNat(k + 1)| <= MaxStrDigits
    ensures Chat(c, s, cred, before + ShowNat(k + 1) + after)
         == Resolve(c, s, cred.userEmail.value, s.foundFiles[k], DeniedOrGone)
  {
    var reply := before + ShowNat(k + 1) + after;
    ParseShowRoundTrip(k + 1, before, after);
    assert Chat(c, s, cred, reply) == SelectionTurn(c, s, cred.userEmail.value, reply);
  }

  /** A number with more digits than `int()` accepts gets the same reply as
      any other text that is not a number, and the session is left as it was. */
  lemma OverlongNumberRefused(c: Collaborators, s: Session, cred: Credential, message: string)
    requires LoggedIn(cred) && s.stage == AwaitingSelection
    requires DigitCount(Strip(message)) > MaxStrDigits
    ensures Chat(c, s, cred, message) == Turn(s, NotANumber, None)
  {
    ParseIntTooManyDigits(message);
  }

  /** Replying with the number printed in front of a listed file (with any
      surrounding whitespace) selects exactly that file. */
  lemma SelectListedEntry(c: Collaborators, s: Session, cred: Credential, message: string, k: nat,
                          before: string, after: string)
    requires LoggedIn(cred)
    requires Chat(c, s, cred, message).reply.Listing?
    requires k < |Chat(c, s, cred, message).reply.entries|
    requires AllSpace(before) && AllSpace(after)
    ensures var t1 := Chat(c, s, cred, message);
      var e := t1.reply.entries[k];
      var f := t1.session.foundFiles[k];
      var t2 := Chat(c, t1.session, cred, before + ShowNat(e.number) + after);
      && t1.session.stage == AwaitingSelection
      && e.name == f.name
      && t2 == Resolve(c, t1.session, cred.userEmail.value, f, DeniedOrGone)
  {
    ListingTurn(c, s, cred, message);
    var t1 := Chat(c, s, cred, message);
    var files := c.search(c.classify(message).data.value);
    assert t1.reply.entries[k] == Entry(k + 1, files[k].name);
    assert ShowNat(k + 1) == [DigitChar(k + 1)];
    SelectByNumber(c, t1.session, cred, k, before, after);
  }

  /** A turn that lists candidates was a file search in stage AwaitingQuery with
      no exact match, and it stored exactly what the search returned. */
  lemma ListingTurn(c: Collaborators, s: Session, cred: Credential, message: string)
    requires Chat(c, s, cred, message).reply.Listing?
    ensures LoggedIn(cred) && s.stage == AwaitingQuery
    ensures var r := c.classify(message);
      && r.intent == Some(FileSearch) && Truthy(r.data)
      && var t := Chat(c, s, cred, message);
      && t.session.foundFiles == c.search(r.data.value) != []
      && t.reply == Listing(Numbered(c.search(r.data.value)))
      && t.session.stage == AwaitingSelection
  {
  }

  /** With a search that returns at most five candidates — as the discovery
      pipeline does — the list shows every stored candidate. */
  lemma ListingShowsAll(c: Collaborators, s: Session, cred: Credential, message: string)
    requires forall q :: |c.search(q)| <= Graph.TopK
    requires Chat(c, s, cred, message).reply.Listing?
    ensures var t := Chat(c, s, cred, message);
      |t.reply.entries| == |t.session.foundFiles| > 0
  {
    ListingTurn(c, s, cred, message);
    var r := c.classify(message);
    assert |c.search(r.data.value)| <= Graph.TopK;
  }

  /** The same, for the discovery pipeline itself as the search collaborator. */
  lemma PipelineListsEverything(g: Graph.Graph, sim: (string, string) -> real,
                                classify: string -> IntentReply, answer: string -> string,
                                hasAccess: (string, string, Option<string>) -> bool,
                                s: Session, cred: Credential, message: string)
    requires Graph.ListingEnds(g.sitePages)
    ensures var c := Collaborators(classify, answer, q => Graph.Discover(g, q, sim), hasAccess);
      var t := Chat(c, s, cred, message);
      t.reply.Listing? ==>
        && |t.reply.entries| == |t.session.foundFiles| > 0
        && forall i :: 0 <= i < |t.session.foundFiles| ==> SiteIdOf(t.session.foundFiles[i]).Some?
  {
    var c := Collaborators(classify, answer, q => Graph.Discover(g, q, sim), hasAccess);
    if Chat(c, s, cred, message).reply.Listing? {
      ListingTurn(c, s, cred, message);
      var q := classify(message).data.value;
      var found := c.search(q);
      assert found == Graph.Discover(g, q, sim);
      forall i | 0 <= i < |found|
        ensures SiteIdOf(found[i]).Some?
      {
        assert found[i] in found;
      }
    }
  }

  /* ---------------- Worked scenarios ---------------- */

  lemma CapitalisedMatches()
    ensures EqualsIgnoreCase("Budget", "budget")
  {
    assert Lower("Budget")[0] == LowerChar('B') == 'b';
    assert Lower("Budget") == "budget";
    assert Lower("budget") == "budget";
  }

  /** Query "budget" against "Budget" and "budget plan": the first is an exact
      match, so with access granted its link is returned without a list. */
  lemma ExactMatchScenario(c: Collaborators, cred: Credential, message: string, a: Item, b: Item)
    requires LoggedIn(cred)
    requires a.id == "1" && a.name == "Budget" && a.webUrl == "u1"
    requires b.id == "2" && b.name == "budget plan" && b.webUrl == "u2"
    requires c.classify(message) == IntentReply(Some(FileSearch), Some("budget"))
    requires c.search("budget") == [a, b]
    requires c.hasAccess("1", cred.userEmail.value, SiteIdOf(a))
    ensures var t := Chat(c, Session(AwaitingQuery, None, []), cred, message);
      && t.reply == Granted("u1", cred.userEmail.value)
      && t.session.stage == AwaitingQuery
      && t.sent == Some(Notification(cred.userEmail.value, "Budget", "u1"))
  {
    var s := Session(AwaitingQuery, None, []);
    var email := cred.userEmail.value;
    CapitalisedMatches();
    assert FirstExactMatch([a, b], "budget", 0) == Some(0);
    assert Chat(c, s, cred, message) == QueryTurn(c, s, email, message);
    assert QueryTurn(c, s, email, message) == SearchTurn(c, s, email, "budget");
  }

  lemma ParseDigit(n: nat)
    requires n < 10
    ensures ParseInt([DigitChar(n)]) == Some(n)
  {
    var t := ShowNat(n);
    assert t == [DigitChar(n)];
    assert "" + t + "" == t;
    ParseShowRoundTrip(n, "", "");
  }

  lemma ParseWord()
    ensures ParseInt("abc") == None
  {
    StripPadded("", "abc", "");
    assert "" + "abc" + "" == "abc";
    ParseIntRejects("abc", 0);
  }

  /** Three stored candidates: "2" picks the second, "5" is out of range and
      "abc" is not a number; the last two leave the stage alone. */
  lemma SelectionScenario(c: Collaborators, cred: Credential, files: seq<Item>)
    requires LoggedIn(cred) && |files| == 3
    ensures var s := Session(AwaitingSelection, Some("plan"), files);
      && Chat(c, s, cred, "2") == Resolve(c, s, cred.userEmail.value, files[1], DeniedOrGone)
      && Chat(c, s, cred, "5") == Turn(s, OutOfRange, None)
      && Chat(c, s, cred, "abc") == Turn(s, NotANumber, None)
  {
    var s := Session(AwaitingSelection, Some("plan"), files);
    ParseDigit(2);
    assert [DigitChar(2)] == "2";
    assert ParseInt("2").value - 1 == 1;
    assert Chat(c, s, cred, "2") == SelectionTurn(c, s, cred.userEmail.value, "2");
    ParseDigit(5);
    assert [DigitChar(5)] == "5";
    ParseWord();
  }
}
