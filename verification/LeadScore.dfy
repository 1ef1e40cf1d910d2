/** The lead score: points for facts, and the two windows of the due date. */
module LeadScore {
  import opened Options
  import opened CalendarMonths

  datatype Persona = Apprentice | Intern | OtherPersona

  datatype WorkTool = Trello | OtherTool

  datatype Rule = DueWithin3Months | DueWithin3To6Months | PersonaApprentice | PersonaIntern | CitedTrello | ConnectedTool
                | ExportPaywallHit

  datatype Tier = Cold | Warm | Hot

  datatype Facts = Facts(persona: Option<Persona>, dueDate: Option<Date>, workTools: Option<seq<WorkTool>>,
                         hasActiveConnector: bool, hasPaywallSignal: bool)

  datatype Entry = Entry(rule: Rule, points: nat)

  predicate NotGreaterText(a: seq<int>, b: seq<int>) {
    a == b || LessText(a, b)
  }

  /** The rule a due date earns, compared as the code compares: as strings. */
  function DueRule(due: Date, today: Date): Option<Rule> {
    var dueText := IsoDate(due);
    if LessText(dueText, IsoDate(today)) then None
    else if LessText(dueText, IsoDate(AddCalendarMonths(today, 3))) then Some(DueWithin3Months)
    else if NotGreaterText(dueText, IsoDate(AddCalendarMonths(today, 6))) then Some(DueWithin3To6Months)
    else None
  }

  /** The rule that is meant: from today up to three months, from there up to six. */
  function MeantRule(due: Date, today: Date): Option<Rule> {
    if Before(due, today) then None
    else if Before(due, MonthsLater(today, 3)) then Some(DueWithin3Months)
    else if NotAfter(due, MonthsLater(today, 6)) then Some(DueWithin3To6Months)
    else None
  }

  function Points(rule: Rule): nat {
    match rule
    case DueWithin3Months => 3
    case DueWithin3To6Months => 2
    case PersonaApprentice => 2
    case PersonaIntern => 1
    case CitedTrello => 2
    case ConnectedTool => 3
    case ExportPaywallHit => 3
  }

  function Sum(breakdown: seq<Entry>): nat {
    if breakdown == [] then 0 else Sum(breakdown[..|breakdown| - 1]) + breakdown[|breakdown| - 1].points
  }

  /** The rule the due date of a lead earns today. */
  function DueOf(facts: Facts, today: Date): Option<Rule> {
    if facts.dueDate.None? then None else DueRule(facts.dueDate.value, today)
  }

  /** The facts, with the rule of the due date, earn this rule. */
  predicate Earns(facts: Facts, due: Option<Rule>, rule: Rule) {
    match rule
    case DueWithin3Months => due == Some(DueWithin3Months)
    case DueWithin3To6Months => due == Some(DueWithin3To6Months)
    case PersonaApprentice => facts.persona == Some(Apprentice)
    case PersonaIntern => facts.persona == Some(Intern)
    case CitedTrello => facts.workTools.Some? && Trello in facts.workTools.value
    case ConnectedTool => facts.hasActiveConnector
    case ExportPaywallHit => facts.hasPaywallSignal
  }

  function Earned(facts: Facts, due: Option<Rule>, rule: Rule): nat {
    if Earns(facts, due, rule) then Points(rule) else 0
  }

  /** The points of every rule the facts earn. */
  function Score(facts: Facts, due: Option<Rule>): nat {
    Earned(facts, due, DueWithin3Months) + Earned(facts, due, DueWithin3To6Months)
    + Earned(facts, due, PersonaApprentice) + Earned(facts, due, PersonaIntern)
    + Earned(facts, due, CitedTrello) + Earned(facts, due, ConnectedTool) + Earned(facts, due, ExportPaywallHit)
  }

  function TierForScore(score: int): Tier {
    if score >= 8 then Hot else if score >= 4 then Warm else Cold
  }

  /** The entry of a rule, when it is earned. */
  function One(facts: Facts, due: Option<Rule>, rule: Rule): seq<Entry> {
    if Earns(facts, due, rule) then [Entry(rule, Points(rule))] else []
  }

  function PersonaPart(facts: Facts, due: Option<Rule>): seq<Entry> {
    One(facts, due, DueWithin3Months) + One(facts, due, DueWithin3To6Months)
    + One(facts, due, PersonaApprentice) + One(facts, due, PersonaIntern)
  }

  /** The entries of the rules earned, in the order the rules are looked at. */
  function Listed(facts: Facts, due: Option<Rule>): seq<Entry> {
    PersonaPart(facts, due) + One(facts, due, CitedTrello) + One(facts, due, ConnectedTool)
    + One(facts, due, ExportPaywallHit)
  }

  lemma {:induction false} SumOne(l: seq<Entry>, facts: Facts, due: Option<Rule>, rule: Rule)
    ensures Sum(l + One(facts, due, rule)) == Sum(l) + Earned(facts, due, rule)
  {
    var more := l + [Entry(rule, Points(rule))];
    assert more[..|l|] == l;
    assert l + [] == l;
  }

  /** The points of the list are the score. */
  lemma {:induction false} ListedScore(facts: Facts, due: Option<Rule>)
    ensures Sum(Listed(facts, due)) == Score(facts, due)
  {
    var l1 := One(facts, due, DueWithin3Months);
    assert [] + l1 == l1;
    SumOne([], facts, due, DueWithin3Months);
    SumOne(l1, facts, due, DueWithin3To6Months);
    var l2 := l1 + One(facts, due, DueWithin3To6Months);
    SumOne(l2, facts, due, PersonaApprentice);
    var l3 := l2 + One(facts, due, PersonaApprentice);
    SumOne(l3, facts, due, PersonaIntern);
    var l4 := PersonaPart(facts, due);
    SumOne(l4, facts, due, CitedTrello);
    var l5 := l4 + One(facts, due, CitedTrello);
    SumOne(l5, facts, due, ConnectedTool);
    SumOne(l5 + One(facts, due, ConnectedTool), facts, due, ExportPaywallHit);
  }

  /** An entry is listed exactly when its rule is earned, with the rule's points. */
  lemma ListedIsEarned(facts: Facts, due: Option<Rule>, entry: Entry)
    ensures entry in Listed(facts, due) <==> Earns(facts, due, entry.rule) && entry.points == Points(entry.rule)
  {
  }

  /** The breakdown of a lead, fact by fact. */
  lemma ListedByFacts(facts: Facts, due: Option<Rule>)
    ensures var listed := Listed(facts, due);
      && (Entry(DueWithin3Months, 3) in listed <==> due == Some(DueWithin3Months))
      && (Entry(DueWithin3To6Months, 2) in listed <==> due == Some(DueWithin3To6Months))
      && (Entry(PersonaApprentice, 2) in listed <==> facts.persona == Some(Apprentice))
      && (Entry(PersonaIntern, 1) in listed <==> facts.persona == Some(Intern))
      && (Entry(CitedTrello, 2) in listed <==> facts.workTools.Some? && Trello in facts.workTools.value)
      && (Entry(ConnectedTool, 3) in listed <==> facts.hasActiveConnector)
      && (Entry(ExportPaywallHit, 3) in listed <==> facts.hasPaywallSignal)
  {
    ListedIsEarned(facts, due, Entry(DueWithin3Months, 3));
    ListedIsEarned(facts, due, Entry(DueWithin3To6Months, 2));
    ListedIsEarned(facts, due, Entry(PersonaApprentice, 2));
    ListedIsEarned(facts, due, Entry(PersonaIntern, 1));
    ListedIsEarned(facts, due, Entry(CitedTrello, 2));
    ListedIsEarned(facts, due, Entry(ConnectedTool, 3));
    ListedIsEarned(facts, due, Entry(ExportPaywallHit, 3));
  }

  /** The order in which the rules are looked at. */
  function Place(rule: Rule): nat {
    match rule
    case DueWithin3Months => 0
    case DueWithin3To6Months => 1
    case PersonaApprentice => 2
    case PersonaIntern => 3
    case CitedTrello => 4
    case ConnectedTool => 5
    case ExportPaywallHit => 6
  }

  predicate InPlace(listed: seq<Entry>, below: nat) {
    && (forall i | 0 <= i < |listed| :: Place(listed[i].rule) < below)
    && (forall i, j | 0 <= i < j < |listed| :: Place(listed[i].rule) < Place(listed[j].rule))
  }

  predicate AtPlace(more: seq<Entry>, k: nat) {
    |more| <= 1 && (more != [] ==> Place(more[0].rule) == k)
  }

  lemma MoreInPlace(listed: seq<Entry>, more: seq<Entry>, k: nat)
    requires InPlace(listed, k) && AtPlace(more, k)
    ensures InPlace(listed + more, k + 1)
  {
  }

  lemma ThreeInPlace(listed: seq<Entry>, a: seq<Entry>, b: seq<Entry>, c: seq<Entry>, k: nat)
    requires InPlace(listed, k) && AtPlace(a, k) && AtPlace(b, k + 1) && AtPlace(c, k + 2)
    ensures InPlace(listed + a + b + c, k + 3)
  {
    MoreInPlace(listed, a, k);
    MoreInPlace(listed + a, b, k + 1);
    MoreInPlace(listed + a + b, c, k + 2);
  }

  lemma OneAtPlace(facts: Facts, due: Option<Rule>, rule: Rule)
    ensures AtPlace(One(facts, due, rule), Place(rule))
  {
  }

  lemma FirstInPlace(first: seq<Entry>)
    requires AtPlace(first, 0)
    ensures InPlace(first, 1)
  {
  }

  lemma {:induction false} PersonaInPlace(facts: Facts, due: Option<Rule>)
    ensures InPlace(PersonaPart(facts, due), 4)
  {
    OneAtPlace(facts, due, DueWithin3Months);
    OneAtPlace(facts, due, DueWithin3To6Months);
    OneAtPlace(facts, due, PersonaApprentice);
    OneAtPlace(facts, due, PersonaIntern);
    FirstInPlace(One(facts, due, DueWithin3Months));
    ThreeInPlace(One(facts, due, DueWithin3Months), One(facts, due, DueWithin3To6Months),
                 One(facts, due, PersonaApprentice), One(facts, due, PersonaIntern), 1);
  }

  /** The breakdown lists each rule once at most, in the order the rules are looked at. */
  lemma {:induction false} ListedInPlace(facts: Facts, due: Option<Rule>)
    ensures InPlace(Listed(facts, due), 7)
  {
    PersonaInPlace(facts, due);
    OneAtPlace(facts, due, CitedTrello);
    OneAtPlace(facts, due, ConnectedTool);
    OneAtPlace(facts, due, ExportPaywallHit);
    ThreeInPlace(PersonaPart(facts, due), One(facts, due, CitedTrello), One(facts, due, ConnectedTool),
                 One(facts, due, ExportPaywallHit), 4);
  }

  /** `add`, when the fact holds. */
  method AddIf(test: bool, breakdown: seq<Entry>, rule: Rule, ghost facts: Facts, ghost due: Option<Rule>)
    returns (more: seq<Entry>)
    requires test == Earns(facts, due, rule)
    ensures more == breakdown + One(facts, due, rule)
  {
    more := breakdown;
    if test {
      more := more + [Entry(rule, Points(rule))];
    }
  }

  /** The due date's branch: three points, two, or no entry. */
  method DueBranch(facts: Facts, today: Date) returns (due: Option<Rule>)
    ensures due == DueOf(facts, today)
  {
    due := None;
    if facts.dueDate.Some? {
      var dueText := IsoDate(facts.dueDate.value);
      if !LessText(dueText, IsoDate(today)) {
        if LessText(dueText, IsoDate(AddCalendarMonths(today, 3))) {
          due := Some(DueWithin3Months);
        } else if NotGreaterText(dueText, IsoDate(AddCalendarMonths(today, 6))) {
          due := Some(DueWithin3To6Months);
        }
      }
    }
  }

  method DateAndPersona(facts: Facts, due: Option<Rule>) returns (breakdown: seq<Entry>)
    ensures breakdown == PersonaPart(facts, due)
  {
    breakdown := AddIf(due == Some(DueWithin3Months), [], DueWithin3Months, facts, due);
    assert breakdown == One(facts, due, DueWithin3Months);
    breakdown := AddIf(due == Some(DueWithin3To6Months), breakdown, DueWithin3To6Months, facts, due);
    breakdown := AddIf(facts.persona == Some(Apprentice), breakdown, PersonaApprentice, facts, due);
    breakdown := AddIf(facts.persona == Some(Intern), breakdown, PersonaIntern, facts, due);
  }

  method BreakdownOf(facts: Facts, due: Option<Rule>) returns (breakdown: seq<Entry>)
    ensures breakdown == Listed(facts, due)
  {
    breakdown := DateAndPersona(facts, due);
    var citesTrello := facts.workTools.Some? && Trello in facts.workTools.value;
    breakdown := AddIf(citesTrello, breakdown, CitedTrello, facts, due);
    breakdown := AddIf(facts.hasActiveConnector, breakdown, ConnectedTool, facts, due);
    breakdown := AddIf(facts.hasPaywallSignal, breakdown, ExportPaywallHit, facts, due);
  }

  /** The score is the sum of the breakdown, which lists exactly the rules earned, each once. */
  method ComputeLeadScore(facts: Facts, today: Date) returns (score: nat, tier: Tier, breakdown: seq<Entry>)
    ensures score == Sum(breakdown) == Score(facts, DueOf(facts, today)) && tier == TierForScore(score)
    ensures breakdown == Listed(facts, DueOf(facts, today))
  {
    var due := DueBranch(facts, today);
    breakdown := BreakdownOf(facts, due);
    score := Sum(breakdown);
    ListedScore(facts, due);
    tier := TierForScore(score);
  }

  // The windows

  predicate YearsFit(today: Date) {
    today.y >= 100 && MonthsLater(today, 6).y <= 9999
  }

  lemma {:induction false} WindowsAsMeant(due: Date, today: Date)
    requires Valid(due) && Valid(today) && 0 <= due.y <= 9999 && YearsFit(today)
    ensures DueRule(due, today) == MeantRule(due, today)
  {
    var three, six := MonthsLater(today, 3), MonthsLater(today, 6);
    AddIsMonthsLater(today, 3);
    AddIsMonthsLater(today, 6);
    AddGivesADate(today, 3);
    AddGivesADate(today, 6);
    StrictInMonths(today, 3, 6);
    TextOrderIsDateOrder(due, today);
    TextOrderIsDateOrder(due, three);
    TextOrderIsDateOrder(due, six);
    TextIsDate(due, six);
  }

  /** A first window that closes after the last date of four digits is never entered: a sign comes before a digit. */
  lemma {:induction false} SignComesFirst(due: Date, later: Date)
    requires 0 <= due.y <= 9999 && later.y > 9999
    ensures !LessText(IsoDate(due), IsoDate(later)) && IsoDate(due) != IsoDate(later)
  {
    assert IsoDate(due)[0] >= 48;
    assert IsoDate(later)[0] == 43;
  }

  /** The code's windows are the ones that are meant, for every due date, exactly when today's year has at least three
      digits and six months from today still has four. */
  lemma {:induction false} WindowsExactly(today: Date)
    requires Valid(today) && 0 <= today.y <= 9999
    ensures YearsFit(today) <==>
      forall due | Valid(due) && 0 <= due.y <= 9999 :: DueRule(due, today) == MeantRule(due, today)
  {
    if YearsFit(today) {
      forall due | Valid(due) && 0 <= due.y <= 9999
        ensures DueRule(due, today) == MeantRule(due, today)
      {
        WindowsAsMeant(due, today);
      }
    } else {
      var due := WrongDueDate(today);
    }
  }

  /** A due date the code gets wrong on such a day. */
  lemma {:induction false} WrongDueDate(today: Date) returns (due: Date)
    requires Valid(today) && 0 <= today.y <= 9999 && !YearsFit(today)
    ensures Valid(due) && 0 <= due.y <= 9999 && DueRule(due, today) != MeantRule(due, today)
  {
    if today.y < 100 {
      due := Date(1000, 1, 1);
      EarlyToday(today, due);
    } else {
      due := if MonthsLater(today, 3).y <= 9999 then MonthsLater(today, 3) else today;
      LateToday(today, due);
    }
  }

  /** Before year 100 the first window closes in the 1900s. */
  lemma {:induction false} EarlyToday(today: Date, due: Date)
    requires Valid(today) && 0 <= today.y < 100 && due == Date(1000, 1, 1)
    ensures DueRule(due, today) == Some(DueWithin3Months) && MeantRule(due, today) == None
  {
    AddGivesADate(today, 3);
    TextOrderIsDateOrder(due, today);
    TextOrderIsDateOrder(due, AddCalendarMonths(today, 3));
  }

  /** At the end of year 9999 a window closes behind the last date the strings can compare. */
  lemma {:induction false} LateToday(today: Date, due: Date)
    requires Valid(today) && 100 <= today.y <= 9999 && MonthsLater(today, 6).y > 9999
    requires due == if MonthsLater(today, 3).y <= 9999 then MonthsLater(today, 3) else today
    ensures Valid(due) && 0 <= due.y <= 9999 && DueRule(due, today) == None && MeantRule(due, today).Some?
  {
    AddIsMonthsLater(today, 3);
    AddIsMonthsLater(today, 6);
    AddGivesADate(today, 3);
    LateWindows(today, due);
    SignComesFirst(due, MonthsLater(today, 6));
    if MonthsLater(today, 3).y <= 9999 {
      TextOrderIsDateOrder(due, MonthsLater(today, 3));
    } else {
      SignComesFirst(due, MonthsLater(today, 3));
    }
  }

  lemma LateWindows(today: Date, due: Date)
    requires Valid(today) && 0 <= today.y <= 9999
    requires due == if MonthsLater(today, 3).y <= 9999 then MonthsLater(today, 3) else today
    ensures !Before(due, today) && Before(due, MonthsLater(today, 6)) && MeantRule(due, today).Some?
  {
  }

  // The score

  /** The comparisons the code makes put a date into the first window exactly from today to before three months from
      today, and into the second exactly from there to six months, its end included: side by side, with no date in both
      and none between. */
  lemma {:induction false} WindowsAreAdjacent(due: Date, today: Date)
    requires Valid(due) && Valid(today) && 0 <= due.y <= 9999 && YearsFit(today)
    ensures var rule, three, six := DueRule(due, today), MonthsLater(today, 3), MonthsLater(today, 6);
      && (rule == Some(DueWithin3Months) <==> NotAfter(today, due) && Before(due, three))
      && (rule == Some(DueWithin3To6Months) <==> NotAfter(three, due) && NotAfter(due, six))
      && (rule == None <==> Before(due, today) || Before(six, due))
      && Before(today, three) && Before(three, six)
  {
    WindowsAsMeant(due, today);
    AddIsMonthsLater(today, 3);
    AddIsMonthsLater(today, 6);
    StrictInMonths(today, 3, 6);
  }

  function DuePoints(due: Option<Rule>): nat {
    if due == Some(DueWithin3Months) then 3 else if due == Some(DueWithin3To6Months) then 2 else 0
  }

  lemma RankFollowsPoints(facts: Facts, a: Option<Rule>, b: Option<Rule>, nearer: Date, later: Date)
    requires DuePoints(a) >= DuePoints(b)
    ensures Score(facts.(dueDate := Some(nearer)), a) >= Score(facts.(dueDate := Some(later)), b)
  {
  }

  /** The window a text that is not past falls into. */
  function WindowOf(due: seq<int>, three: seq<int>, six: seq<int>): Option<Rule> {
    if LessText(due, three) then Some(DueWithin3Months)
    else if NotGreaterText(due, six) then Some(DueWithin3To6Months)
    else None
  }

  /** Wherever the windows close, an earlier text earns no less. */
  lemma {:induction false} NearerEarnsNoLess(nearer: seq<int>, later: seq<int>, three: seq<int>, six: seq<int>)
    requires NotGreaterText(nearer, later)
    ensures DuePoints(WindowOf(nearer, three, six)) >= DuePoints(WindowOf(later, three, six))
  {
    if nearer != later {
      if LessText(later, three) {
        LessIsTransitive(nearer, later, three);
      }
      if LessText(later, six) {
        LessIsTransitive(nearer, later, six);
      }
    }
  }

  lemma {:induction false} NotPastAsText(due: Date, today: Date)
    requires Valid(due) && Valid(today) && 0 <= due.y <= 9999 && NotAfter(today, due)
    ensures !LessText(IsoDate(due), IsoDate(today))
  {
    if today.y >= 0 {
      TextOrderIsDateOrder(due, today);
    } else {
      assert IsoDate(due)[0] >= 48;
      assert IsoDate(today)[0] == 45;
    }
  }

  lemma {:induction false} NotGreaterWhenNearer(nearer: Date, later: Date)
    requires Valid(nearer) && Valid(later) && 0 <= nearer.y && later.y <= 9999 && NotAfter(nearer, later)
    ensures NotGreaterText(IsoDate(nearer), IsoDate(later))
  {
    TextOrderIsDateOrder(nearer, later);
  }

  lemma {:induction false} NotPastRule(due: Date, today: Date)
    requires Valid(due) && Valid(today) && 0 <= due.y <= 9999 && NotAfter(today, due)
    ensures DueRule(due, today)
      == WindowOf(IsoDate(due), IsoDate(AddCalendarMonths(today, 3)), IsoDate(AddCalendarMonths(today, 6)))
  {
    NotPastAsText(due, today);
  }

  /** A due date that is nearer, and not past, never scores lower. */
  lemma {:induction false} NearerScoresNoLower(facts: Facts, nearer: Date, later: Date, today: Date)
    requires Valid(nearer) && Valid(later) && Valid(today)
    requires 0 <= nearer.y && later.y <= 9999 && NotAfter(today, nearer) && NotAfter(nearer, later)
    ensures Score(facts.(dueDate := Some(nearer)), DueRule(nearer, today))
      >= Score(facts.(dueDate := Some(later)), DueRule(later, today))
  {
    NotGreaterWhenNearer(nearer, later);
    NotPastRule(nearer, today);
    NotPastRule(later, today);
    var three, six := IsoDate(AddCalendarMonths(today, 3)), IsoDate(AddCalendarMonths(today, 6));
    NearerEarnsNoLess(IsoDate(nearer), IsoDate(later), three, six);
    RankFollowsPoints(facts, DueRule(nearer, today), DueRule(later, today), nearer, later);
  }

  /** At most 13 points; a lead due today that earns every other rule has them all. */
  lemma {:induction false} ScoreRange(facts: Facts, today: Date)
    ensures Score(facts, DueOf(facts, today)) <= 13
    ensures Valid(today) && YearsFit(today) && today.y <= 9999 ==>
      var all := Facts(Some(Apprentice), Some(today), Some([Trello]), true, true);
      Score(all, DueOf(all, today)) == 13
  {
    if Valid(today) && YearsFit(today) && today.y <= 9999 {
      WindowsAreAdjacent(today, today);
      assert DueRule(today, today) == Some(DueWithin3Months);
    }
  }

  /** A higher score never has a lower tier, and the tiers change at 4 and at 8. */
  lemma TiersFollowScores(a: int, b: int)
    requires a <= b
    ensures TierForScore(b).Cold? ==> TierForScore(a).Cold?
    ensures TierForScore(a).Hot? ==> TierForScore(b).Hot?
    ensures (TierForScore(a) != TierForScore(b)) <==> a < 4 <= b || a < 8 <= b
  {
  }

  // The score by the facts

  function OfDueDate(dueDate: Option<Date>, today: Date): nat {
    if dueDate.None? || Before(dueDate.value, today) then 0
    else if Before(dueDate.value, MonthsLater(today, 3)) then 3
    else if NotAfter(dueDate.value, MonthsLater(today, 6)) then 2
    else 0
  }

  /** Three points for a due date less than three months away and two up to six, two for an apprentice and one for an
      intern, two for citing the one work tool, three for a connected tool and three for meeting the paywall. */
  lemma ScoreOfFacts(facts: Facts, today: Date)
    requires Valid(today) && YearsFit(today) && today.y <= 9999
    requires facts.dueDate.Some? ==> Valid(facts.dueDate.value) && 0 <= facts.dueDate.value.y <= 9999
    ensures Score(facts, DueOf(facts, today)) ==
      OfDueDate(facts.dueDate, today)
      + (if facts.persona == Some(Apprentice) then 2 else if facts.persona == Some(Intern) then 1 else 0)
      + (if facts.workTools.Some? && Trello in facts.workTools.value then 2 else 0)
      + (if facts.hasActiveConnector then 3 else 0) + (if facts.hasPaywallSignal then 3 else 0)
  {
    if facts.dueDate.Some? {
      WindowsAsMeant(facts.dueDate.value, today);
    }
  }
}
