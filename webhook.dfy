/** The chat bot's webhook (src/app/api/telegram-webhook/route.ts): an
    incoming chat message is matched to the household linked to its chat and
    run as one of the commands `/lijst`, `/gekocht`, `/voeg`, `/voorraad` and
    `/help`. Replies are given as values; their wording and markup are not
    part of this model. */
module Webhook {
  import opened Wrappers
  import opened Types
  import opened Seqs
  import opened Text
  import opened Store
  import ProductCard

  /** The part of an incoming update the handler reads: the chat and the
      text of the message, when there is one. */
  datatype Message = Message(chatId: int, text: Option<string>)
  datatype Update = Update(message: Option<Message>)

  /** `message?.text` is truthy: a message with non-empty text. */
  function MessageText(u: Update): (t: Option<string>)
    ensures t.Some? <==> u.message.Some? && u.message.value.text.Some? && u.message.value.text.value != []
    ensures t.Some? ==> t.value == u.message.value.text.value
  {
    if u.message.Some? && u.message.value.text.Some? && u.message.value.text.value != [] then
      Some(u.message.value.text.value)
    else None
  }

  function LinkedTo(chatId: string): Household -> bool {
    (x: Household) => x.telegramChatId == Some(chatId)
  }

  /** `.eq("telegram_chat_id", chatId).single()`: the household linked to
      the chat, when exactly one household is. */
  function LinkedHousehold(hhs: seq<Household>, chatId: string): (r: Option<Id>)
    ensures r.Some? ==> exists i :: 0 <= i < |hhs| && hhs[i].telegramChatId == Some(chatId) && hhs[i].id == r.value
    ensures r.Some? ==> forall i, j :: 0 <= i < j < |hhs| ==> !(hhs[i].telegramChatId == Some(chatId) && hhs[j].telegramChatId == Some(chatId))
    ensures r.None? ==> || (forall i :: 0 <= i < |hhs| ==> hhs[i].telegramChatId != Some(chatId))
                        || exists i, j :: 0 <= i < j < |hhs| && hhs[i].telegramChatId == Some(chatId) && hhs[j].telegramChatId == Some(chatId)
  {
    match IndexOfFirst(hhs, LinkedTo(chatId))
    case None => None
    case Some(i) =>
      var rest := hhs[i + 1..];
      match IndexOfFirst(rest, LinkedTo(chatId))
      case Some(k) =>
        assert rest[k] == hhs[i + 1 + k];
        None
      case None =>
        assert forall j :: i < j < |hhs| ==> hhs[j] == rest[j - i - 1];
        Some(hhs[i].id)
  }

  /** The commands, told apart on the trimmed text. */
  datatype Command =
    | ListCmd
    | BoughtCmd(productName: string)
    | AddCmd(parts: seq<string>)
    | StockCmd
    | HelpCmd
    | NoCommand

  /** What is left of `text` once `keyword` and the whitespace after it are
      cut off (`replace(/^\/keyword\s+/, "")`), trimmed. */
  function Argument(text: string, keyword: string): (r: string)
    requires |keyword| <= |text|
    ensures Trimmed(r)
  {
    Trim(TrimLeft(text[|keyword|..]))
  }

  /** Cutting the whitespace after the keyword first changes nothing: the
      argument is the rest of the text after the keyword, trimmed. */
  lemma ArgumentIsTrimmedRest(text: string, keyword: string)
    requires |keyword| <= |text|
    ensures Argument(text, keyword) == Trim(text[|keyword|..])
  {
    var l := TrimLeft(text[|keyword|..]);
    assert TrimLeft(l) == l;
  }

  predicate IsListText(text: string) {
    text == "/list" || text == "/lijst"
  }

  predicate IsBoughtText(text: string) {
    StartsWith(text, "/gekocht ") || StartsWith(text, "/bought ")
  }

  predicate IsAddText(text: string) {
    StartsWith(text, "/add ") || StartsWith(text, "/voeg ")
  }

  predicate IsStockText(text: string) {
    text == "/voorraad" || text == "/status"
  }

  /** After a prefix that ends in a space, a trimmed text still has a
      non-blank argument: its last character is not whitespace. */
  lemma {:induction false} ArgumentOfTrimmedText(text: string, keyword: string)
    requires Trimmed(text)
    requires |keyword| < |text| && IsSpace(text[|keyword|])
    ensures Argument(text, keyword) != []
    ensures !IsSpace(Argument(text, keyword)[0])
  {
    var rest := text[|keyword|..];
    assert rest[|rest| - 1] == text[|text| - 1];
    var l := TrimLeft(rest);
    assert l != [] && l[|l| - 1] == rest[|rest| - 1];
  }

  /** The dispatch chain, tried in this order: exact matches for the list
      command, prefixes that include the trailing space for `/gekocht`,
      `/bought`, `/add` and `/voeg`, exact matches for the stock and help
      commands; anything else is no command. On trimmed text the product
      name of `/gekocht` is never empty, so its usage reply cannot be
      reached, and `/add` has at least one whitespace-free token. */
  function Classify(text: string): (c: Command)
    ensures c == ListCmd <==> IsListText(text)
    ensures c.BoughtCmd? <==> !IsListText(text) && IsBoughtText(text)
    ensures c.AddCmd? <==> !IsListText(text) && !IsBoughtText(text) && IsAddText(text)
    ensures c == StockCmd <==> !IsListText(text) && !IsBoughtText(text) && !IsAddText(text) && IsStockText(text)
    ensures c == HelpCmd <==> !IsListText(text) && !IsBoughtText(text) && !IsAddText(text) && !IsStockText(text)
                              && text == "/help"
    ensures Trimmed(text) && c.BoughtCmd? ==> c.productName != []
    ensures Trimmed(text) && c.AddCmd? ==> |c.parts| >= 1 && AllWords(c.parts)
  {
    if IsListText(text) then ListCmd
    else if StartsWith(text, "/gekocht ") then
      assert text[8] == ' ' by { assert text[..9][8] == ' '; }
      assert Trimmed(text) ==> Argument(text, "/gekocht") != [] && !IsSpace(Argument(text, "/gekocht")[0]) by {
        if Trimmed(text) { ArgumentOfTrimmedText(text, "/gekocht"); }
      }
      BoughtCmd(Argument(text, "/gekocht"))
    else if StartsWith(text, "/bought ") then
      assert text[7] == ' ' by { assert text[..8][7] == ' '; }
      assert Trimmed(text) ==> Argument(text, "/bought") != [] && !IsSpace(Argument(text, "/bought")[0]) by {
        if Trimmed(text) { ArgumentOfTrimmedText(text, "/bought"); }
      }
      BoughtCmd(Argument(text, "/bought"))
    else if StartsWith(text, "/add ") then
      assert text[4] == ' ' by { assert text[..5][4] == ' '; }
      assert Trimmed(text) ==> Argument(text, "/add") != [] && !IsSpace(Argument(text, "/add")[0]) by {
        if Trimmed(text) { ArgumentOfTrimmedText(text, "/add"); }
      }
      AddCmd(SplitWhitespace(Argument(text, "/add")))
    else if StartsWith(text, "/voeg ") then
      assert text[5] == ' ' by { assert text[..6][5] == ' '; }
      assert Trimmed(text) ==> Argument(text, "/voeg") != [] && !IsSpace(Argument(text, "/voeg")[0]) by {
        if Trimmed(text) { ArgumentOfTrimmedText(text, "/voeg"); }
      }
      AddCmd(SplitWhitespace(Argument(text, "/voeg")))
    else if IsStockText(text) then StockCmd
    else if text == "/help" then HelpCmd
    else NoCommand
  }

  /** The values `/add` reads from its tokens. */
  datatype AddArgs = AddArgs(name: string, daysUntilEmpty: int, remindDaysBefore: int)

  const DefaultRemindDaysBefore: int := 2

  /** The `/add` parser: the last one or two tokens are the day counts and
      the tokens before them, joined by single spaces, are the name. Two
      trailing numbers are read as days and reminder days when at least one
      token is left for the name; otherwise a trailing number is the days,
      with a 2-day reminder. Fewer than two tokens, or a last token that is
      not a number, is a usage error. */
  function ParseAdd(parts: seq<string>): (r: Option<AddArgs>)
    ensures r.Some? <==> |parts| >= 2 && IsNumeric(parts[|parts| - 1])
    ensures r.Some? && |parts| >= 3 && IsNumeric(parts[|parts| - 2]) ==>
              && r.value.daysUntilEmpty == DecimalValue(parts[|parts| - 2])
              && r.value.remindDaysBefore == DecimalValue(parts[|parts| - 1])
    ensures r.Some? && !(|parts| >= 3 && IsNumeric(parts[|parts| - 2])) ==>
              && r.value.daysUntilEmpty == DecimalValue(parts[|parts| - 1])
              && r.value.remindDaysBefore == DefaultRemindDaysBefore
  {
    var n := |parts|;
    if n < 2 then None
    else if n >= 3 && IsNumeric(parts[n - 2]) && IsNumeric(parts[n - 1]) then
      Some(AddArgs(JoinSpace(parts[..n - 2]), DecimalValue(parts[n - 2]), DecimalValue(parts[n - 1])))
    else if IsNumeric(parts[n - 1]) then
      Some(AddArgs(JoinSpace(parts[..n - 1]), DecimalValue(parts[n - 1]), DefaultRemindDaysBefore))
    else None
  }

  /** The parsed name is never empty and splits back into exactly the
      tokens that were not read as numbers. */
  lemma {:induction false} ParsedNameIsLeadingTokens(parts: seq<string>)
    requires AllWords(parts)
    requires ParseAdd(parts).Some?
    ensures ParseAdd(parts).value.name != []
    ensures |parts| >= 3 && IsNumeric(parts[|parts| - 2]) ==> Tokens(ParseAdd(parts).value.name) == parts[..|parts| - 2]
    ensures !(|parts| >= 3 && IsNumeric(parts[|parts| - 2])) ==> Tokens(ParseAdd(parts).value.name) == parts[..|parts| - 1]
  {
    var n := |parts|;
    var k := if n >= 3 && IsNumeric(parts[n - 2]) then 2 else 1;
    var lead := parts[..n - k];
    assert ParseAdd(parts).value.name == JoinSpace(lead);
    LeadingWords(parts, n - k);
    TokensOfJoin(lead);
    assert IsWord(lead[0]);
  }

  lemma {:induction false} LeadingWords(parts: seq<string>, m: nat)
    requires AllWords(parts) && m <= |parts|
    ensures AllWords(parts[..m])
  {
    forall i | 0 <= i < m ensures IsWord(parts[..m][i]) {
      assert parts[..m][i] == parts[i];
    }
  }

  /** A name and its counts, written out as tokens, parse back to
      themselves. */
  lemma {:induction false} AddRoundTrip(words: seq<string>, days: nat, remind: nat)
    requires |words| >= 1 && AllWords(words)
    ensures ParseAdd(words + [NatToString(days), NatToString(remind)]) == Some(AddArgs(JoinSpace(words), days, remind))
  {
    NatToStringRoundTrip(days);
    NatToStringRoundTrip(remind);
    var parts := words + [NatToString(days), NatToString(remind)];
    assert parts[..|parts| - 2] == words;
  }

  /** With only the days given, the reminder defaults to 2 days, provided
      the name does not itself end in a number. */
  lemma {:induction false} AddRoundTripDefault(words: seq<string>, days: nat)
    requires |words| >= 1 && AllWords(words)
    requires !IsNumeric(words[|words| - 1])
    ensures ParseAdd(words + [NatToString(days)]) == Some(AddArgs(JoinSpace(words), days, DefaultRemindDaysBefore))
  {
    NatToStringRoundTrip(days);
    var parts := words + [NatToString(days)];
    assert parts[..|parts| - 1] == words;
    assert parts[|parts| - 2] == words[|words| - 1];
  }

  /** A name that ends in a number followed by the days alone is read the
      other way: the name's number becomes the days and the days the
      reminder. */
  lemma {:induction false} TrailingNumberInNameIsRead(words: seq<string>, days: nat)
    requires |words| >= 2 && IsNumeric(words[|words| - 1])
    ensures ParseAdd(words + [NatToString(days)])
            == Some(AddArgs(JoinSpace(words[..|words| - 1]), DecimalValue(words[|words| - 1]), days))
  {
    NatToStringRoundTrip(days);
    var parts := words + [NatToString(days)];
    assert parts[..|parts| - 2] == words[..|words| - 1];
    assert parts[|parts| - 2] == words[|words| - 1];
  }

  /** The products `/gekocht` looks among: the household's active products
      whose name contains the argument, ignoring case. */
  function NameMatch(h: Id, productName: string): Product -> bool {
    (p: Product) => p.householdId == h && p.isActive && ContainsIgnoringCase(p.name, productName)
  }

  /** A product is among them exactly when it is an active product of the
      household and some piece of its name is the argument up to case. */
  lemma NameMatchIff(h: Id, productName: string, p: Product)
    ensures NameMatch(h, productName)(p) <==>
              p.householdId == h && p.isActive && exists i: nat :: MatchesAt(p.name, productName, i)
  {
    ContainsIgnoringCaseAt(p.name, productName);
  }

  /** `/gekocht` restocks the same product whatever the case of the
      argument's letters. */
  lemma BoughtIgnoresCase(a: string, b: string, h: Id, ps: seq<Product>, timing: Product -> Timing, now: Instant)
    requires SameIgnoringCase(a, b)
    ensures Execute(BoughtCmd(a), h, ps, timing, now).effect == Execute(BoughtCmd(b), h, ps, timing, now).effect
  {
    forall p: Product ensures NameMatch(h, a)(p) == NameMatch(h, b)(p) {
      MatchIgnoresCase(p.name, p.name, a, b);
    }
    var fa := IndexOfFirst(ps, NameMatch(h, a));
    var fb := IndexOfFirst(ps, NameMatch(h, b));
    if fa.Some? && fb.Some? {
      assert !(fa.value < fb.value) && !(fb.value < fa.value);
    }
  }

  /** `/voorraad`: `!!!` once run out, `(!)` inside the reminder window,
      blank otherwise. */
  function StockMark(days: int, remindDaysBefore: int): (m: string)
    ensures m == "!!!" <==> days <= 0
    ensures m == "(!)" <==> 0 < days <= remindDaysBefore
    ensures m == "   " <==> 0 < days && remindDaysBefore < days
  {
    if days <= 0 then "!!!" else if days <= remindDaysBefore then "(!)" else "   "
  }

  /** The chat's three marks are the product card's three colour bands. */
  lemma StockMarkIsCardTier(days: int, remindDaysBefore: int)
    ensures StockMark(days, remindDaysBefore) == "!!!" <==> ProductCard.Urgency(days, remindDaysBefore) == ProductCard.Overdue
    ensures StockMark(days, remindDaysBefore) == "(!)" <==> ProductCard.Urgency(days, remindDaysBefore) == ProductCard.Urgent
    ensures StockMark(days, remindDaysBefore) == "   " <==> ProductCard.Urgency(days, remindDaysBefore) == ProductCard.Fine
  {
  }

  /** `/lijst`: what follows a product's name, "(OP!)" once it has run out,
      else its days left. */
  function ListSuffix(days: int): (s: string)
    ensures s == " (OP!)" <==> days <= 0
    ensures days > 0 ==> s == " (" + ProductCard.Badge(days) + ")"
  {
    if days <= 0 then " (OP!)"
    else
      var digits := NatToString(days);
      NatToStringRoundTrip(days);
      assert IsDigit(digits[0]);
      var s := " (" + digits + "d)";
      assert s[2] == digits[0];
      assert ProductCard.Badge(days) == digits + "d";
      assert s == " (" + (digits + "d") + ")";
      s
  }

  /** The replies, one per branch of the handler. */
  datatype Reply =
    | ShoppingListReply(items: seq<ProductWithTiming>)
    | BoughtUsage
    | NotFound(productName: string)
    | MarkedBought(productName: string)
    | AddUsage
    | Added(name: string, daysUntilEmpty: int, remindDaysBefore: int)
    | StockReply(items: seq<ProductWithTiming>)
    | HelpMenu

  /** What a message does to the store. */
  datatype Effect = NoEffect | Restock(id: Id) | Insert(row: Product)

  datatype Outcome = Outcome(reply: Option<Reply>, effect: Effect)

  /** One command of household `h`. */
  function Execute(cmd: Command, h: Id, ps: seq<Product>, timing: Product -> Timing, now: Instant): (o: Outcome)
    ensures o.effect.Restock? ==> cmd.BoughtCmd? && exists i :: && 0 <= i < |ps| && ps[i].id == o.effect.id && NameMatch(h, cmd.productName)(ps[i])
                                                               && (forall j :: 0 <= j < i ==> !NameMatch(h, cmd.productName)(ps[j]))
                                                               && o.reply == Some(MarkedBought(ps[i].name))
    ensures o.effect.Insert? ==> && cmd.AddCmd? && ParseAdd(cmd.parts).Some?
                                 && o.effect.row == NewProductRow(h, ParseAdd(cmd.parts).value.name, None,
                                                                  ParseAdd(cmd.parts).value.daysUntilEmpty,
                                                                  ParseAdd(cmd.parts).value.remindDaysBefore, now, None, now)
    ensures cmd.BoughtCmd? && cmd.productName != [] ==>
              (o.effect.Restock? <==> exists i :: 0 <= i < |ps| && NameMatch(h, cmd.productName)(ps[i]))
    ensures cmd.AddCmd? ==> (o.effect.Insert? <==> ParseAdd(cmd.parts).Some?)
    ensures o.reply.None? <==> cmd == NoCommand
    ensures cmd == ListCmd ==> o == Outcome(Some(ShoppingListReply(ShoppingListRows(TimingView(ps, timing), h))), NoEffect)
    ensures cmd == StockCmd ==> o == Outcome(Some(StockReply(HouseholdStock(TimingView(ps, timing), h))), NoEffect)
    ensures cmd == HelpCmd ==> o == Outcome(Some(HelpMenu), NoEffect)
    ensures cmd.BoughtCmd? && cmd.productName == [] ==> o == Outcome(Some(BoughtUsage), NoEffect)
    ensures cmd.BoughtCmd? && cmd.productName != [] && (forall i :: 0 <= i < |ps| ==> !NameMatch(h, cmd.productName)(ps[i])) ==>
              o == Outcome(Some(NotFound(cmd.productName)), NoEffect)
    ensures cmd.AddCmd? && ParseAdd(cmd.parts).None? ==> o == Outcome(Some(AddUsage), NoEffect)
    ensures cmd.AddCmd? && ParseAdd(cmd.parts).Some? ==>
              o.reply == Some(Added(ParseAdd(cmd.parts).value.name, ParseAdd(cmd.parts).value.daysUntilEmpty,
                                    ParseAdd(cmd.parts).value.remindDaysBefore))
  {
    match cmd
    case ListCmd => Outcome(Some(ShoppingListReply(ShoppingListRows(TimingView(ps, timing), h))), NoEffect)
    case BoughtCmd(productName) =>
      if productName == [] then Outcome(Some(BoughtUsage), NoEffect)
      else
        var found := IndexOfFirst(ps, NameMatch(h, productName));
        if found.None? then Outcome(Some(NotFound(productName)), NoEffect)
        else Outcome(Some(MarkedBought(ps[found.value].name)), Restock(ps[found.value].id))
    case AddCmd(parts) =>
      var args := ParseAdd(parts);
      if args.None? then Outcome(Some(AddUsage), NoEffect)
      else
        var a := args.value;
        Outcome(Some(Added(a.name, a.daysUntilEmpty, a.remindDaysBefore)),
                Insert(NewProductRow(h, a.name, None, a.daysUntilEmpty, a.remindDaysBefore, now, None, now)))
    case StockCmd => Outcome(Some(StockReply(HouseholdStock(TimingView(ps, timing), h))), NoEffect)
    case HelpCmd => Outcome(Some(HelpMenu), NoEffect)
    case NoCommand => Outcome(None, NoEffect)
  }

  /** The household an update's chat is linked to, when it has text. */
  function SenderHousehold(hhs: seq<Household>, u: Update): Option<Id> {
    if MessageText(u).Some? then LinkedHousehold(hhs, IntToString(u.message.value.chatId)) else None
  }

  /** `POST` as a function of the tables it reads: no text, or a chat that
      is not linked to a household, gets no reply and changes nothing;
      otherwise the trimmed text is run as a command of that household. */
  function Respond(hhs: seq<Household>, ps: seq<Product>, u: Update, timing: Product -> Timing, now: Instant): (o: Outcome)
    ensures SenderHousehold(hhs, u).None? ==> o == Outcome(None, NoEffect)
    ensures SenderHousehold(hhs, u).Some? ==>
              && MessageText(u).Some?
              && o == Execute(Classify(Trim(MessageText(u).value)), SenderHousehold(hhs, u).value, ps, timing, now)
    ensures o.effect.Restock? ==> exists i :: 0 <= i < |ps| && ps[i].id == o.effect.id && ps[i].isActive
                                              && ps[i].householdId == SenderHousehold(hhs, u).value
    ensures o.effect.Insert? ==> && o.effect.row.status == Stocked && o.effect.row.isActive
                                 && o.effect.row.name != []
                                 && o.effect.row.householdId == SenderHousehold(hhs, u).value
    ensures o.reply.None? ==> o.effect == NoEffect
    ensures o.reply != Some(BoughtUsage)
  {
    match SenderHousehold(hhs, u)
    case None => Outcome(None, NoEffect)
    case Some(h) =>
      var text := Trim(MessageText(u).value);
      TrimmedCommandOutcome(text, h, ps, timing, now);
      Execute(Classify(text), h, ps, timing, now)
  }

  /** What a trimmed text can do as a command of household `h`: the usage
      reply of an empty `/gekocht` is out of reach, a restock hits an active
      product of `h`, an insert is a named `stocked` product of `h`, and only
      a reply comes with a change. */
  lemma {:induction false} TrimmedCommandOutcome(text: string, h: Id, ps: seq<Product>, timing: Product -> Timing, now: Instant)
    requires Trimmed(text)
    ensures var o := Execute(Classify(text), h, ps, timing, now);
            && (o.effect.Restock? ==> exists i :: 0 <= i < |ps| && ps[i].id == o.effect.id && ps[i].isActive && ps[i].householdId == h)
            && (o.effect.Insert? ==> && o.effect.row.status == Stocked && o.effect.row.isActive
                                     && o.effect.row.name != [] && o.effect.row.householdId == h)
            && (o.reply.None? ==> o.effect == NoEffect)
            && o.reply != Some(BoughtUsage)
  {
    var cmd := Classify(text);
    if cmd.AddCmd? && ParseAdd(cmd.parts).Some? {
      ParsedNameIsLeadingTokens(cmd.parts);
    }
  }

  /** The handler itself: the same decisions taken step by step against the
      store, writing what `Respond` says and replying with its reply. */
  method Post(db: Database, u: Update, timing: Product -> Timing, now: Instant) returns (reply: Option<Reply>)
    requires db.Valid()
    modifies db
    ensures db.Valid()
    ensures reply == Respond(old(db.households), old(db.products), u, timing, now).reply
    ensures Respond(old(db.households), old(db.products), u, timing, now).effect == NoEffect ==>
              db.products == old(db.products) && db.nextId == old(db.nextId)
    ensures Respond(old(db.households), old(db.products), u, timing, now).effect.Restock? ==>
              && db.products == Patched(old(db.products), {Respond(old(db.households), old(db.products), u, timing, now).effect.id}, RestockPatch(now))
              && db.nextId == old(db.nextId)
    ensures Respond(old(db.households), old(db.products), u, timing, now).effect.Insert? ==>
              && db.products == old(db.products) + [Respond(old(db.households), old(db.products), u, timing, now).effect.row.(id := old(db.nextId))]
              && db.nextId == old(db.nextId) + 1
    ensures db.households == old(db.households) && db.reminders == old(db.reminders) && db.log == old(db.log)
  {
    var message := u.message;
    if message.None? || message.value.text.None? || message.value.text.value == [] {
      return None;
    }
    var chatId := IntToString(message.value.chatId);
    var text := Trim(message.value.text.value);
    var household := LinkedHousehold(db.households, chatId);
    if household.None? {
      return None;
    }
    var h := household.value;
    ghost var o := Respond(db.households, db.products, u, timing, now);
    assert Classify(text) == Classify(Trim(MessageText(u).value));
    if text == "/list" || text == "/lijst" {
      reply := Some(ShoppingListReply(ShoppingListRows(TimingView(db.products, timing), h)));
    } else if StartsWith(text, "/gekocht ") || StartsWith(text, "/bought ") {
      var productName := if StartsWith(text, "/gekocht ") then Argument(text, "/gekocht") else Argument(text, "/bought");
      if productName == [] {
        return Some(BoughtUsage);
      }
      var found := IndexOfFirst(db.products, NameMatch(h, productName));
      if found.None? {
        reply := Some(NotFound(productName));
      } else {
        var product := db.products[found.value];
        db.UpdateProducts({product.id}, NoProductChange.(status := Some(Stocked), lastRestockedAt := Some(now), updatedAt := Some(now)));
        reply := Some(MarkedBought(product.name));
      }
    } else if StartsWith(text, "/add ") || StartsWith(text, "/voeg ") {
      var parts := SplitWhitespace(if StartsWith(text, "/add ") then Argument(text, "/add") else Argument(text, "/voeg"));
      var args := ParseAdd(parts);
      if args.None? {
        return Some(AddUsage);
      }
      var a := args.value;
      var _ := db.InsertProduct(NewProductRow(h, a.name, None, a.daysUntilEmpty, a.remindDaysBefore, now, None, now));
      reply := Some(Added(a.name, a.daysUntilEmpty, a.remindDaysBefore));
    } else if text == "/voorraad" || text == "/status" {
      reply := Some(StockReply(HouseholdStock(TimingView(db.products, timing), h)));
    } else if text == "/help" {
      reply := Some(HelpMenu);
    } else {
      reply := None;
    }
  }
}
