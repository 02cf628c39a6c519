/**
  The chat server: the registry of connected clients, the broadcast to all of
  them, the handling of one inbound message (relay, then the "exchange"
  command), and the register/unregister bracket around a session.

  A connection is a client id; its display name is supplied by the caller.
  Every `client.send` is recorded, in order, in the field `sent`; whether a
  send to a client succeeds is given by `link`. A session's inbound messages
  and the way its read loop ends are parameters, and so are today's date and
  the provider's answer for each date.
 */
module ChatServer {
  import opened Wrappers
  import opened Exceptions
  import opened Strings
  import opened ConsoleRates

  type ClientId = nat

  /** A broadcast message: the chat relay, or one `RATE_STR` line
      ("Exchange Rates for {day}: EUR {eur} USD {usd}"). */
  datatype Message = Text(text: string) | RateLine(day: Date, eur: Rate, usd: Rate)

  /** One `client.send(message)` */
  datatype Delivery = Delivery(to: ClientId, message: Message)

  /** What `client.send` does for a client. */
  datatype SendResult = Delivered | ClosedOK | ClosedError {
    function Raises(): Exc
      requires !Delivered?
    {
      if ClosedOK? then ConnectionClosedOK else ConnectionClosedError
    }
  }

  /** How `async for message in ws` ends: it stops on a clean close and raises
      on a broken connection. */
  datatype ReadEnd = CleanClose | AbnormalClose

  /** The messages a session broadcasts, in order, and the exception it ends with. */
  datatype Reaction = Reaction(lines: seq<Message>, raised: Option<Exc>)

  /** `lines` broadcast before everything `r` broadcasts. */
  function Prepend(lines: seq<Message>, r: Reaction): Reaction {
    Reaction(lines + r.lines, r.raised)
  }

  // ---------------------------------------------------------------------------
  // broadcasts, as seen in the record of sends

  ghost predicate DistinctRecipients(batch: seq<Delivery>) {
    forall i, j :: 0 <= i < j < |batch| ==> batch[i].to != batch[j].to
  }

  ghost function Recipients(batch: seq<Delivery>): set<ClientId> {
    set i | 0 <= i < |batch| :: batch[i].to
  }

  /** `batch` sends `m` to members of `clients`, to none of them twice. */
  ghost predicate PartialBroadcast(batch: seq<Delivery>, clients: set<ClientId>, m: Message) {
    && DistinctRecipients(batch)
    && forall i :: 0 <= i < |batch| ==> batch[i].to in clients && batch[i].message == m
  }

  /** `batch` sends `m` exactly once to each member of `clients`: to
      distinct members, as many sends as there are members (so every
      member is reached, `BroadcastReachesAll`). */
  ghost predicate IsBroadcast(batch: seq<Delivery>, clients: set<ClientId>, m: Message) {
    PartialBroadcast(batch, clients, m) && |batch| == |clients|
  }

  /** Distinct recipients: as many as there are sends. */
  lemma {:induction false} RecipientsCount(batch: seq<Delivery>)
    requires DistinctRecipients(batch)
    ensures |Recipients(batch)| == |batch|
    decreases |batch|
  {
    if batch != [] {
      var n := |batch| - 1;
      var front := batch[..n];
      assert forall i :: 0 <= i < n ==> front[i] == batch[i];
      RecipientsCount(front);
      assert Recipients(batch) == Recipients(front) + {batch[n].to} by {
        forall c | c in Recipients(batch) ensures c in Recipients(front) + {batch[n].to} {
          var i :| 0 <= i < |batch| && batch[i].to == c;
          if i < n {
            assert c == front[i].to;
          }
        }
        forall c | c in Recipients(front) ensures c in Recipients(batch) {
          var i :| 0 <= i < n && front[i].to == c;
          assert c == batch[i].to;
        }
      }
      assert batch[n].to !in Recipients(front);
    }
  }

  /** A broadcast reaches every member of `clients`. */
  lemma BroadcastReachesAll(batch: seq<Delivery>, clients: set<ClientId>, m: Message)
    requires IsBroadcast(batch, clients, m)
    ensures Recipients(batch) == clients
  {
    RecipientsCount(batch);
    var reached := Recipients(batch);
    if reached != clients {
      var c :| c in clients && c !in reached;
      assert reached <= clients - {c};
      assert |clients - {c}| == |clients| - 1;
      SubsetNoLarger(reached, clients - {c});
    }
  }

  lemma {:induction false} SubsetNoLarger(small: set<ClientId>, large: set<ClientId>)
    requires small <= large
    ensures |small| <= |large|
    decreases small
  {
    if small != {} {
      var x :| x in small;
      SubsetNoLarger(small - {x}, large - {x});
    }
  }

  /** `log` is one broadcast of each of `messages` to `clients`, in order. */
  ghost predicate BroadcastsOf(log: seq<Delivery>, clients: set<ClientId>, messages: seq<Message>)
    decreases messages
  {
    if messages == [] then log == []
    else
      && |clients| <= |log|
      && IsBroadcast(log[..|clients|], clients, messages[0])
      && BroadcastsOf(log[|clients|..], clients, messages[1..])
  }

  lemma OneBroadcast(batch: seq<Delivery>, clients: set<ClientId>, m: Message)
    requires IsBroadcast(batch, clients, m)
    ensures BroadcastsOf(batch, clients, [m])
  {
    assert batch[..|clients|] == batch;
    assert batch[|clients|..] == [];
  }

  /** Broadcasting `ms` and then `ns` broadcasts `ms + ns`. */
  lemma {:induction false} BroadcastsAppend(a: seq<Delivery>, b: seq<Delivery>, clients: set<ClientId>, ms: seq<Message>, ns: seq<Message>)
    requires BroadcastsOf(a, clients, ms) && BroadcastsOf(b, clients, ns)
    ensures BroadcastsOf(a + b, clients, ms + ns)
    decreases ms
  {
    if ms == [] {
      assert a + b == b && ms + ns == ns;
    } else {
      var k := |clients|;
      BroadcastsAppend(a[k..], b, clients, ms[1..], ns);
      assert (a + b)[..k] == a[..k];
      assert (a + b)[k..] == a[k..] + b;
      assert (ms + ns)[0] == ms[0];
      assert (ms + ns)[1..] == ms[1..] + ns;
    }
  }

  /** One more send of `m`, to a client not yet reached. */
  lemma AddRecipient(batch: seq<Delivery>, clients: set<ClientId>, m: Message, client: ClientId)
    requires PartialBroadcast(batch, clients, m) && client in clients && client !in Recipients(batch)
    ensures PartialBroadcast(batch + [Delivery(client, m)], clients, m)
    ensures Recipients(batch + [Delivery(client, m)]) == Recipients(batch) + {client}
  {
    var d := Delivery(client, m);
    var longer := batch + [d];
    assert forall i :: 0 <= i < |batch| ==> longer[i] == batch[i];
    assert longer[|batch|] == d;
    assert forall i :: 0 <= i < |batch| ==> batch[i].to in Recipients(batch);
    assert client in Recipients(longer);
    forall c | c in Recipients(longer) ensures c in Recipients(batch) + {client} {
      var i :| 0 <= i < |longer| && longer[i].to == c;
      if i < |batch| {
        assert c in Recipients(batch);
      }
    }
  }

  /** The loop of `send_to_clients` so far: `batch` sent `m` once to every
      member of `clients` outside `pending`, and each of them accepted it. */
  ghost predicate Sending(batch: seq<Delivery>, clients: set<ClientId>, pending: set<ClientId>, m: Message, link: ClientId -> SendResult) {
    && pending <= clients
    && PartialBroadcast(batch, clients, m)
    && Recipients(batch) == clients - pending
    && |batch| + |pending| == |clients|
    && forall c :: c in clients - pending ==> link(c) == Delivered
  }

  /** A pending client accepts the send. */
  lemma SendingStep(batch: seq<Delivery>, clients: set<ClientId>, pending: set<ClientId>, m: Message, link: ClientId -> SendResult,
                    client: ClientId)
    requires Sending(batch, clients, pending, m, link) && client in pending && link(client) == Delivered
    ensures Sending(batch + [Delivery(client, m)], clients, pending - {client}, m, link)
  {
    AddRecipient(batch, clients, m, client);
  }

  /** A pending client raises: what was sent so far went to distinct
      clients, all of which accepted it. */
  lemma SendingStop(batch: seq<Delivery>, clients: set<ClientId>, pending: set<ClientId>, m: Message, link: ClientId -> SendResult,
                    client: ClientId)
    requires Sending(batch, clients, pending, m, link) && client in pending && link(client) != Delivered
    ensures PartialBroadcast(batch, clients, m) && !Healthy(clients, link)
    ensures forall d :: d in batch ==> link(d.to) == Delivered
  {
    forall d | d in batch ensures link(d.to) == Delivered {
      var i :| 0 <= i < |batch| && batch[i] == d;
      assert d.to in Recipients(batch);
    }
  }

  /** No client pending: one send to each client. */
  lemma SendingDone(batch: seq<Delivery>, clients: set<ClientId>, m: Message, link: ClientId -> SendResult)
    requires Sending(batch, clients, {}, m, link)
    ensures IsBroadcast(batch, clients, m) && Healthy(clients, link)
  {
  }

  /** A record of sends that grew by the broadcasts of `more`. */
  lemma ExtendLog(before: seq<Delivery>, after: seq<Delivery>, start: nat, clients: set<ClientId>, lines: seq<Message>, more: seq<Message>)
    requires start <= |before| <= |after| && after[..|before|] == before
    requires BroadcastsOf(before[start..], clients, lines)
    requires BroadcastsOf(after[|before|..], clients, more)
    ensures after[..start] == before[..start]
    ensures BroadcastsOf(after[start..], clients, lines + more)
  {
    assert after[start..] == before[start..] + after[|before|..];
    BroadcastsAppend(before[start..], after[|before|..], clients, lines, more);
  }

  /** Every member of `clients` accepts sends. */
  predicate Healthy(clients: set<ClientId>, link: ClientId -> SendResult) {
    forall c :: c in clients ==> link(c) == Delivered
  }

  // ---------------------------------------------------------------------------
  // the exchange command

  /** `f"{ws.name}: {message}"` */
  function Relay(name: string, message: string): (m: Message)
    ensures m.Text?
  {
    Text(name + ": " + message)
  }

  /** The relay reads as the sender's name, a colon and a space, and the
      message, in that order. */
  lemma RelayText(name: string, message: string)
    ensures var m := Relay(name, message);
      && |m.text| == |name| + 2 + |message|
      && m.text[..|name|] == name && m.text[|name|..|name| + 2] == ": " && m.text[|name| + 2..] == message
  {
  }

  /** `message.lower().startswith("exchange")`: the first eight characters
      spell the word in any mix of cases, so a longer first word
      ("exchanges") is recognised too. */
  function IsExchange(message: string): (b: bool)
    ensures b <==> |message| >= 8 && forall i :: 0 <= i < 8 ==> message[i] == "exchange"[i] || message[i] == "EXCHANGE"[i]
  {
    var low := Lower(message);
    assert |message| >= 8 ==> forall i :: 0 <= i < 8 ==> low[..8][i] == LowerChar(message[i]);
    StartsWith(low, "exchange")
  }

  /** `$` of Python's `re`: the end of the string, or just before a newline
      that ends it. */
  predicate AtEnd(s: string, q: nat)
    requires q <= |s|
  {
    q == |s| || (q == |s| - 1 && s[q] == '\n')
  }

  /** `\s([1-9]|10)$` matches `s` at position `p`. */
  predicate MatchesAt(s: string, p: nat) {
    && p < |s| && IsSpace(s[p])
    && (|| (p + 2 <= |s| && '1' <= s[p + 1] <= '9' && AtEnd(s, p + 2))
        || (p + 3 <= |s| && s[p + 1] == '1' && s[p + 2] == '0' && AtEnd(s, p + 3)))
  }

  /** `re.search(r"\s([1-9]|10)$", s)` finds a match. */
  ghost predicate Search(s: string) {
    exists p: nat :: MatchesAt(s, p)
  }

  /** `t` ends with a whitespace character and then 1..9 or 10. */
  predicate EndsWithCount(t: string) {
    || (|t| >= 2 && IsSpace(t[|t| - 2]) && '1' <= t[|t| - 1] <= '9')
    || (|t| >= 3 && IsSpace(t[|t| - 3]) && t[|t| - 2] == '1' && t[|t| - 1] == '0')
  }

  /** The search, checked at the only places it can match. */
  predicate HasDayArgument(s: string) {
    EndsWithCount(s) || (|s| >= 1 && s[|s| - 1] == '\n' && EndsWithCount(s[..|s| - 1]))
  }

  /** Checking the end of the string finds exactly the matches the search finds. */
  lemma HasDayArgumentIsSearch(s: string)
    ensures HasDayArgument(s) <==> Search(s)
  {
    var n := |s|;
    if EndsWithCount(s) {
      if n >= 2 && IsSpace(s[n - 2]) && '1' <= s[n - 1] <= '9' {
        assert MatchesAt(s, n - 2);
      } else {
        assert MatchesAt(s, n - 3);
      }
    } else if n >= 1 && s[n - 1] == '\n' && EndsWithCount(s[..n - 1]) {
      var t := s[..n - 1];
      if n - 1 >= 2 && IsSpace(t[n - 3]) && '1' <= t[n - 2] <= '9' {
        assert MatchesAt(s, n - 3);
      } else {
        assert MatchesAt(s, n - 4);
      }
    }
    if Search(s) {
      var p: nat :| MatchesAt(s, p);
      if p + 2 <= n && '1' <= s[p + 1] <= '9' && AtEnd(s, p + 2) {
        if p + 2 < n {
          assert s[..n - 1][p] == s[p] && s[..n - 1][p + 1] == s[p + 1];
        }
      } else {
        if p + 3 < n {
          assert s[..n - 1][p] == s[p] && s[..n - 1][p + 1] == s[p + 1] && s[..n - 1][p + 2] == s[p + 2];
        }
      }
    }
  }

  /** Line 55 of the server: `days[1:]` when the search matches, else `"1"`. */
  function DayArgument(days: string): (r: string)
    ensures Search(days) ==> r == days[1..]
    ensures !Search(days) ==> r == "1"
  {
    HasDayArgumentIsSearch(days);
    if HasDayArgument(days) then days[1..] else "1"
  }

  /** The day count the match at `p` spells. */
  function CountAt(s: string, p: nat): (n: nat)
    requires MatchesAt(s, p)
    ensures 1 <= n <= 10
  {
    if p + 3 <= |s| && s[p + 1] == '1' && s[p + 2] == '0' then 10 else DigitValue(s[p + 1])
  }

  /** When every character after the first, up to and including the matched
      whitespace, is whitespace `int()` skips, the day count is the number
      at the end. */
  lemma DayArgumentCount(s: string, p: nat)
    requires MatchesAt(s, p)
    requires forall i :: 1 <= i <= p ==> IsIntSpace(s[i])
    ensures ParseDays(DayArgument(s)) == Some(CountAt(s, p))
  {
    HasDayArgumentIsSearch(s);
    CountParses(s, p);
  }

  /** `int(s[1:])` reads the count the match at `p` spells. */
  lemma CountParses(s: string, p: nat)
    requires MatchesAt(s, p)
    requires forall i :: 1 <= i <= p ==> IsIntSpace(s[i])
    ensures ParseInt(s[1..]) == Some(CountAt(s, p))
  {
    var n := CountAt(s, p);
    var digits := Decimal(n);
    var width := if n == 10 then 2 else 1;
    assert s[p + 1..p + 1 + width] == digits;
    var pre := s[1..p + 1];
    var post := s[p + 1 + width..];
    assert forall i :: 0 <= i < |pre| ==> pre[i] == s[i + 1];
    assert forall i :: 0 <= i < |post| ==> post[i] == '\n';
    assert s[1..] == pre + digits + post;
    ParseIntDecimal(pre, n, post);
  }

  /** When something `int()` does not skip stands after the first character
      and up to the matched whitespace (a word, or one of the separators
      U+001C..U+001F that `\s` matches), `int()` rejects the argument: the
      command ends with ValueError instead of falling back to one day. */
  lemma DayArgumentWordFails(s: string, p: nat, i: nat)
    requires MatchesAt(s, p)
    requires 1 <= i <= p && !IsIntSpace(s[i])
    ensures ParseDays(DayArgument(s)) == None
  {
    HasDayArgumentIsSearch(s);
    var u := s[1..];
    assert u[i - 1] == s[i] && u[p - 1] == s[p] && u[p] == s[p + 1];
    ParseIntRejectsStray(u, i - 1, p - 1, p);
  }

  /** With a match at `p`, the day count is accepted exactly when everything
      after the first character up to the match is whitespace `int()` skips. */
  lemma DayArgumentAccepted(s: string, p: nat)
    requires MatchesAt(s, p)
    ensures ParseDays(DayArgument(s)).Some? <==> forall i :: 1 <= i <= p ==> IsIntSpace(s[i])
  {
    if forall i :: 1 <= i <= p ==> IsIntSpace(s[i]) {
      DayArgumentCount(s, p);
    } else {
      var i :| 1 <= i <= p && !IsIntSpace(s[i]);
      DayArgumentWordFails(s, p, i);
    }
  }

  /** Without a match the argument is `"1"`, which is one day. */
  lemma DayArgumentDefault(s: string)
    requires !Search(s)
    ensures DayArgument(s) == "1"
    ensures ParseDays(DayArgument(s)) == Some(1)
  {
    assert [] + Decimal(1) + [] == "1";
    ParseIntDecimal([], 1, []);
  }

  lemma DayArgumentExamples()
    ensures DayArgument(" 10") == "10"
    ensures DayArgument(" 11") == "1"
    ensures DayArgument("  3") == " 3"
    ensures DayArgument(" 3") == "3"
    ensures DayArgument("") == "1"
    ensures DayArgument("x") == "1"
  {
    assert HasDayArgument(" 10");
    assert !EndsWithCount(" 11");
    assert HasDayArgument("  3");
    assert HasDayArgument(" 3");
  }

  // ---------------------------------------------------------------------------
  // what a session broadcasts, when every send succeeds

  /** `m` has exactly one key, as every map `get_rates` returns. */
  ghost predicate SingleKey<V>(m: map<Date, V>) {
    exists d :: d in m && forall e :: e in m ==> e == d
  }

  lemma OnlyKey<V>(m: map<Date, V>, d: Date)
    requires m.Keys == {d}
    ensures SingleKey(m)
  {
    assert d in m.Keys;
    forall e | e in m ensures e == d {
      assert e in m.Keys;
    }
  }

  /** Every result of a query is an exception or a map with one key. */
  ghost predicate Shaped(results: seq<Slot>) {
    forall i :: 0 <= i < |results| && results[i].DayRates? ==> SingleKey(results[i].rates)
  }

  /** The rate lines `show_rates` broadcasts for the results of a query, and
      the exception that stops it: an exception in place of a result is not
      iterable (TypeError), a day without EUR or USD is a KeyError. */
  ghost function RateLines(results: seq<Slot>): (r: Reaction)
    requires Shaped(results)
    ensures |r.lines| <= |results|
    ensures r.raised == None || r.raised == Some(TypeError) || r.raised == Some(KeyError)
    ensures r.raised == None ==> |r.lines| == |results|
  {
    if results == [] then Reaction([], None)
    else match results[0]
      case Raised(_) => Reaction([], Some(TypeError))
      case DayRates(dr) =>
        assert SingleKey(results[0].rates);
        var day :| day in dr;  // next(iter(dr))
        var rates := dr[day];
        if "EUR" !in rates || "USD" !in rates then Reaction([], Some(KeyError))
        else
          Prepend([RateLine(day, rates["EUR"], rates["USD"])], RateLines(results[1..]))
  }

  /** Line `i` reports the day of result `i`. */
  lemma {:induction false} RateLinesDays(results: seq<Slot>)
    requires Shaped(results)
    ensures var r := RateLines(results);
      forall i :: 0 <= i < |r.lines| ==>
        r.lines[i].RateLine? && results[i].DayRates? && r.lines[i].day in results[i].rates
  {
    if results != [] && results[0].DayRates? {
      ShapedSuffix(results, 1);
      RateLinesDays(results[1..]);
      var rest := RateLines(results[1..]);
      assert forall i :: 0 <= i < |rest.lines| ==> results[1..][i] == results[i + 1];
    }
  }

  lemma ShapedSuffix(results: seq<Slot>, k: nat)
    requires Shaped(results) && k <= |results|
    ensures Shaped(results[k..])
  {
    assert forall i :: 0 <= i < |results| - k ==> results[k..][i] == results[k + i];
  }

  /** `RateLines` from position `k` on, one result at a time: `day` is the
      only key of the `k`-th map, so it is the one `next(iter(dr))` yields. */
  lemma RateLinesAt(results: seq<Slot>, k: nat, day: Date)
    requires Shaped(results) && k < |results|
    requires results[k].DayRates? && day in results[k].rates
    ensures Shaped(results[k..]) && Shaped(results[k + 1..])
    ensures var rates := results[k].rates[day];
      RateLines(results[k..]) ==
        if "EUR" !in rates || "USD" !in rates then Reaction([], Some(KeyError))
        else Prepend([RateLine(day, rates["EUR"], rates["USD"])], RateLines(results[k + 1..]))
  {
    ShapedSuffix(results, k);
    ShapedSuffix(results, k + 1);
    var rest := results[k..];
    assert rest[0] == results[k] && rest[1..] == results[k + 1..];
    assert SingleKey(results[k].rates);
  }

  /** `log` broadcasts `lines`, the rate lines for the results before
      position `k`, and `plan` is what the whole loop broadcasts. */
  ghost predicate LinesSent(log: seq<Delivery>, clients: set<ClientId>, lines: seq<Message>, plan: Reaction, results: seq<Slot>, k: nat) {
    && k <= |results| && Shaped(results[k..])
    && BroadcastsOf(log, clients, lines)
    && plan == Prepend(lines, RateLines(results[k..]))
  }

  /** One more rate line broadcast. */
  lemma LinesSentStep(before: seq<Delivery>, after: seq<Delivery>, start: nat, clients: set<ClientId>,
                      lines: seq<Message>, plan: Reaction, results: seq<Slot>, k: nat, day: Date)
    requires start <= |before| <= |after| && after[..|before|] == before
    requires Shaped(results) && k < |results| && results[k].DayRates? && day in results[k].rates
    requires LinesSent(before[start..], clients, lines, plan, results, k)
    requires var rates := results[k].rates[day];
      && "EUR" in rates && "USD" in rates
      && IsBroadcast(after[|before|..], clients, RateLine(day, rates["EUR"], rates["USD"]))
    ensures after[..start] == before[..start]
    ensures var rates := results[k].rates[day];
      LinesSent(after[start..], clients, lines + [RateLine(day, rates["EUR"], rates["USD"])], plan, results, k + 1)
  {
    var rates := results[k].rates[day];
    var line := RateLine(day, rates["EUR"], rates["USD"]);
    RateLinesAt(results, k, day);
    OneBroadcast(after[|before|..], clients, line);
    ExtendLog(before, after, start, clients, lines, [line]);
    PrependPrepend(lines, [line], RateLines(results[k + 1..]));
  }

  /** What the loop of `show_rates` leaves in `log` and raises: with every
      client accepting, what `RateLines` says; otherwise an exception as
      soon as there is a line to send. */
  ghost predicate LinesReported(log: seq<Delivery>, clients: set<ClientId>, link: ClientId -> SendResult, raised: Option<Exc>,
                                results: seq<Slot>)
    requires Shaped(results)
  {
    && (Healthy(clients, link) ==> raised == RateLines(results).raised && BroadcastsOf(log, clients, RateLines(results).lines))
    && (!Healthy(clients, link) && RateLines(results).lines != [] ==> raised != None)
  }

  /** The loop stops at position `k` with what `RateLines` raises there. */
  lemma LinesSentStop(log: seq<Delivery>, clients: set<ClientId>, link: ClientId -> SendResult, lines: seq<Message>,
                      results: seq<Slot>, k: nat, raised: Option<Exc>)
    requires Shaped(results) && LinesSent(log, clients, lines, RateLines(results), results, k)
    requires k > 0 ==> Healthy(clients, link)
    requires k < |results| ==> raised.Some? && RateLines(results[k..]) == Reaction([], raised)
    requires k == |results| ==> raised == None
    ensures LinesReported(log, clients, link, raised, results)
  {
    assert lines + [] == lines;
    assert results[0..] == results;
    if k == |results| {
      assert results[k..] == [];
    }
  }

  /** An exception in place of the `k`-th result stops the lines there. */
  lemma RateLinesRaisedAt(results: seq<Slot>, k: nat)
    requires Shaped(results) && k < |results| && results[k].Raised?
    ensures Shaped(results[k..])
    ensures RateLines(results[k..]) == Reaction([], Some(TypeError))
  {
    ShapedSuffix(results, k);
    assert results[k..][0] == results[k];
  }

  lemma PrependPrepend(a: seq<Message>, b: seq<Message>, r: Reaction)
    ensures Prepend(a, Prepend(b, r)) == Prepend(a + b, r)
  {
    assert a + (b + r.lines) == a + b + r.lines;
  }

  /** The currencies `show_rates` asks for: what `set_currencies` keeps of
      the default list "USD,EUR" (`ValidCodesBoth`). */
  const DEFAULT_CODES: set<string> := {"USD", "EUR"}

  /** `show_rates(days)`: ValueError for a rejected day count; otherwise
      the rate lines of the query for the dates ending today. */
  ghost function ShowRatesPlan(days: string, today: Date, answer: Date -> Fetch): (r: Reaction)
    ensures ParseDays(DayArgument(days)).None? ==> r == Reaction([], Some(ValueError))
  {
    match ParseDays(DayArgument(days))
    case None => Reaction([], Some(ValueError))
    case Some(count) =>
      QueryShapes(DEFAULT_CODES, count, today, answer);
      RateLines(Fetches(DEFAULT_CODES, DateList(count, today), answer))
  }

  /** For an accepted day count, the plan is the rate lines of the query
      for the dates ending today. */
  lemma ShowRatesPlanQuery(days: string, today: Date, answer: Date -> Fetch, count: nat)
    requires ParseDays(DayArgument(days)) == Some(count)
    ensures Shaped(Fetches(DEFAULT_CODES, DateList(count, today), answer))
    ensures ShowRatesPlan(days, today, answer) == RateLines(Fetches(DEFAULT_CODES, DateList(count, today), answer))
  {
    QueryShapes(DEFAULT_CODES, count, today, answer);
  }

  /** What `show_rates(days)` leaves in `log` and raises, when every
      client accepts: what `ShowRatesPlan` says. */
  ghost predicate RatesShown(log: seq<Delivery>, clients: set<ClientId>, link: ClientId -> SendResult, raised: Option<Exc>,
                             days: string, today: Date, answer: Date -> Fetch)
  {
    Healthy(clients, link) ==>
      var plan := ShowRatesPlan(days, today, answer);
      raised == plan.raised && BroadcastsOf(log, clients, plan.lines)
  }

  /** A rejected day count: nothing is sent and `ValueError` is raised. */
  lemma RatesShownRejected(clients: set<ClientId>, link: ClientId -> SendResult, days: string, today: Date, answer: Date -> Fetch)
    requires ParseDays(DayArgument(days)).None?
    ensures RatesShown([], clients, link, Some(ValueError), days, today, answer)
  {
  }

  /** An accepted day count: what the loop over the query's results sends
      and raises. */
  lemma RatesShownAccepted(log: seq<Delivery>, clients: set<ClientId>, link: ClientId -> SendResult, raised: Option<Exc>,
                           days: string, today: Date, answer: Date -> Fetch, count: nat)
    requires ParseDays(DayArgument(days)) == Some(count)
    requires Shaped(Fetches(DEFAULT_CODES, DateList(count, today), answer))
    requires LinesReported(log, clients, link, raised, Fetches(DEFAULT_CODES, DateList(count, today), answer))
    ensures RatesShown(log, clients, link, raised, days, today, answer)
  {
    ShowRatesPlanQuery(days, today, answer, count);
  }

  /** For an accepted day count: at most one line per day, line `i` for
      the `i`-th day, oldest first, and one for every day unless the loop
      raised; the exception is never the day count's `ValueError`. */
  lemma ShowRatesPlanLines(days: string, today: Date, answer: Date -> Fetch, count: nat)
    requires ParseDays(DayArgument(days)) == Some(count)
    ensures var r := ShowRatesPlan(days, today, answer);
      && |r.lines| <= count
      && r.raised != Some(ValueError)
      && (r.raised == None ==> |r.lines| == count)
      && forall i :: 0 <= i < |r.lines| ==> r.lines[i].RateLine? && r.lines[i].day == today - (count - 1 - i)
  {
    var dates := DateList(count, today);
    var results := Fetches(DEFAULT_CODES, dates, answer);
    ShowRatesPlanQuery(days, today, answer, count);
    RateLinesDays(results);
    DateListAt(count, today);
    var r := RateLines(results);
    forall i | 0 <= i < |r.lines|
      ensures r.lines[i].day == today - (count - 1 - i)
    {
      assert r.lines[i].day in results[i].rates.Keys;
    }
  }

  lemma QueryShapes(wanted: set<string>, count: nat, today: Date, answer: Date -> Fetch)
    ensures Shaped(Fetches(wanted, DateList(count, today), answer))
  {
    DateListAt(count, today);
  }

  /** A result without a `{day: rates}` map holding both EUR and USD. */
  ghost predicate Unreportable(slot: Slot) {
    slot.Raised? || exists d :: d in slot.rates && ("EUR" !in slot.rates[d] || "USD" !in slot.rates[d])
  }

  /** The lines stop at the first result that cannot be reported, with an
      exception: nothing after it is broadcast. */
  lemma {:induction false} RateLinesStop(results: seq<Slot>, k: nat)
    requires Shaped(results) && k < |results| && Unreportable(results[k])
    ensures RateLines(results).raised.Some? && |RateLines(results).lines| <= k
  {
    if results[0].DayRates? {
      var d :| d in results[0].rates;
      RateLinesAt(results, 0, d);
      assert results[0..] == results;
      var rates := results[0].rates[d];
      if k == 0 {
        assert SingleKey(results[0].rates);
        var d' :| d' in results[0].rates && ("EUR" !in results[0].rates[d'] || "USD" !in results[0].rates[d']);
        assert d' == d;
      } else if "EUR" in rates && "USD" in rates {
        ShapedSuffix(results, 1);
        assert results[1..][k - 1] == results[k];
        RateLinesStop(results[1..], k - 1);
      }
    }
  }

  /** Every result is the map of its date alone, with EUR and USD rates. */
  ghost predicate Reportable(results: seq<Slot>, dates: seq<Date>) {
    && |dates| == |results|
    && forall i :: 0 <= i < |results| ==>
      && results[i].DayRates? && results[i].rates.Keys == {dates[i]}
      && "EUR" in results[i].rates[dates[i]] && "USD" in results[i].rates[dates[i]]
  }

  /** The rate line of a reportable result. */
  ghost function LineOf(slot: Slot, day: Date): Message
    requires slot.DayRates? && day in slot.rates && "EUR" in slot.rates[day] && "USD" in slot.rates[day]
  {
    RateLine(day, slot.rates[day]["EUR"], slot.rates[day]["USD"])
  }

  lemma ReportableShaped(results: seq<Slot>, dates: seq<Date>)
    requires Reportable(results, dates)
    ensures Shaped(results)
  {
    forall i | 0 <= i < |results| ensures SingleKey(results[i].rates) {
      OnlyKey(results[i].rates, dates[i]);
    }
  }

  /** The first of reportable results gives its line, and the rest are
      reportable. */
  lemma RateLinesFirst(results: seq<Slot>, dates: seq<Date>)
    requires Reportable(results, dates) && results != []
    ensures Shaped(results) && Reportable(results[1..], dates[1..])
    ensures dates[0] in results[0].rates
    ensures RateLines(results) == Prepend([LineOf(results[0], dates[0])], RateLines(results[1..]))
  {
    ReportableShaped(results, dates);
    assert dates[0] in results[0].rates.Keys;
    RateLinesAt(results, 0, dates[0]);
    assert results[0..] == results;
    forall i | 0 <= i < |results| - 1
      ensures results[1..][i] == results[i + 1] && dates[1..][i] == dates[i + 1]
    {
    }
  }

  /** When every result holds EUR and USD for its date, one line is
      broadcast per result, in the order of the results. */
  lemma {:induction false} RateLinesAll(results: seq<Slot>, dates: seq<Date>)
    requires Reportable(results, dates)
    ensures Shaped(results)
    ensures var r := RateLines(results);
      && r.raised == None && |r.lines| == |results|
      && forall i :: 0 <= i < |results| ==> dates[i] in results[i].rates && r.lines[i] == LineOf(results[i], dates[i])
  {
    ReportableShaped(results, dates);
    if results != [] {
      RateLinesFirst(results, dates);
      RateLinesAll(results[1..], dates[1..]);
      var lines := RateLines(results).lines;
      forall i | 1 <= i < |results|
        ensures dates[i] in results[i].rates && lines[i] == LineOf(results[i], dates[i])
      {
        assert results[1..][i - 1] == results[i] && dates[1..][i - 1] == dates[i];
      }
    }
  }

  /** A refused or failed date of a query cannot be reported. */
  lemma FailedFetchUnreportable(wanted: set<string>, count: nat, today: Date, answer: Date -> Fetch, k: nat)
    requires k < count
    requires var d := today - (count - 1 - k);
      answer(d).ConnectorError? || (answer(d).Answered? && answer(d).status >= 400)
    ensures k < |Fetches(wanted, DateList(count, today), answer)|
    ensures Unreportable(Fetches(wanted, DateList(count, today), answer)[k])
  {
    DateListAt(count, today);
    var d := today - (count - 1 - k);
    var slot := Fetches(wanted, DateList(count, today), answer)[k];
    assert slot == GetRates(wanted, d, answer(d));
    assert slot == DayRates(map[d := map[]]);
    assert d in slot.rates && "EUR" !in slot.rates[d];
  }

  /** A date whose request is refused, or answered with an error status,
      ends the command with an exception after at most the lines of the
      earlier dates: its empty rates have no EUR. */
  lemma FailedDateEndsCommand(days: string, today: Date, answer: Date -> Fetch, count: nat, k: nat)
    requires ParseDays(DayArgument(days)) == Some(count) && k < count
    requires var d := today - (count - 1 - k);
      answer(d).ConnectorError? || (answer(d).Answered? && answer(d).status >= 400)
    ensures ShowRatesPlan(days, today, answer).raised.Some?
    ensures |ShowRatesPlan(days, today, answer).lines| <= k
  {
    var wanted := DEFAULT_CODES;
    QueryShapes(wanted, count, today, answer);
    FailedFetchUnreportable(wanted, count, today, answer, k);
    RateLinesStop(Fetches(wanted, DateList(count, today), answer), k);
  }

  /** When the provider answers every date with a payload holding EUR and
      USD, the command broadcasts one line per day, oldest first, ending
      with today. */
  lemma ReportsEveryDay(days: string, today: Date, answer: Date -> Fetch, count: nat)
    requires ParseDays(DayArgument(days)) == Some(count)
    requires forall d :: today - count < d <= today ==>
      var f := answer(d);
      && f.Answered? && f.status < 400 && f.body.Some?
      && var m := RatesByCurrency(f.body.value, {"USD", "EUR"});
         m.Some? && "EUR" in m.value && "USD" in m.value
    ensures var plan := ShowRatesPlan(days, today, answer);
      && plan.raised == None && |plan.lines| == count
      && forall i :: 0 <= i < count ==> plan.lines[i].RateLine? && plan.lines[i].day == today - (count - 1 - i)
  {
    var results := Fetches(DEFAULT_CODES, DateList(count, today), answer);
    EveryDayReportable(today, count, answer);
    RateLinesAll(results, DateList(count, today));
    ShowRatesPlanQuery(days, today, answer, count);
    ShowRatesPlanLines(days, today, answer, count);
  }

  /** The query's results when every date's payload holds EUR and USD. */
  lemma EveryDayReportable(today: Date, count: nat, answer: Date -> Fetch)
    requires forall d :: today - count < d <= today ==>
      var f := answer(d);
      && f.Answered? && f.status < 400 && f.body.Some?
      && var m := RatesByCurrency(f.body.value, {"USD", "EUR"});
         m.Some? && "EUR" in m.value && "USD" in m.value
    ensures Reportable(Fetches(DEFAULT_CODES, DateList(count, today), answer), DateList(count, today))
  {
    var wanted := DEFAULT_CODES;
    var dates := DateList(count, today);
    var results := Fetches(wanted, dates, answer);
    DateListAt(count, today);
    forall i | 0 <= i < |results|
      ensures results[i].DayRates? && results[i].rates.Keys == {dates[i]}
      ensures "EUR" in results[i].rates[dates[i]] && "USD" in results[i].rates[dates[i]]
    {
      var d := dates[i];
      assert today - count < d <= today;
      var f := answer(d);
      assert results[i] == GetRates(wanted, d, f);
      assert results[i] == DayRates(map[d := RatesByCurrency(f.body.value, wanted).value]);
    }
  }

  /** One inbound message: the relay, then, for the command, the rate lines. */
  ghost function React(name: string, message: string, today: Date, answer: Date -> Fetch): (r: Reaction)
    ensures |r.lines| >= 1 && r.lines[0] == Relay(name, message)
    ensures |r.lines| > 1 || r.raised.Some? ==> IsExchange(message)
  {
    var relay := Relay(name, message);
    if IsExchange(message) then Prepend([relay], ShowRatesPlan(message[8..], today, answer))
    else Reaction([relay], None)
  }

  /** A session's messages in order, up to the first exception. */
  ghost function Session(name: string, inbound: seq<string>, end: ReadEnd, today: Date, answer: Date -> Fetch): (r: Reaction)
    ensures r.raised != Some(ConnectionClosedOK)
    ensures inbound != [] ==> |r.lines| >= 1 && r.lines[0] == Relay(name, inbound[0])
  {
    if inbound == [] then Reaction([], if end == AbnormalClose then Some(ConnectionClosedError) else None)
    else
      var first := React(name, inbound[0], today, answer);
      if first.raised.Some? then first
      else Prepend(first.lines, Session(name, inbound[1..], end, today, answer))
  }

  /** `Session` from the `i`-th inbound message on, one message at a time. */
  lemma SessionAt(name: string, inbound: seq<string>, i: nat, end: ReadEnd, today: Date, answer: Date -> Fetch)
    requires i < |inbound|
    ensures var first := React(name, inbound[i], today, answer);
      Session(name, inbound[i..], end, today, answer) ==
        if first.raised.Some? then first
        else Prepend(first.lines, Session(name, inbound[i + 1..], end, today, answer))
  {
    assert inbound[i..][0] == inbound[i] && inbound[i..][1..] == inbound[i + 1..];
  }

  /** `log` broadcasts what a session over `inbound` broadcasts, and the
      session ends by raising `raised`. */
  ghost predicate SessionReported(log: seq<Delivery>, clients: set<ClientId>, raised: Option<Exc>,
                                  name: string, inbound: seq<string>, end: ReadEnd, today: Date, answer: Date -> Fetch)
  {
    var s := Session(name, inbound, end, today, answer);
    raised == s.raised && BroadcastsOf(log, clients, s.lines)
  }

  /** `log` broadcasts `lines`, the messages a session over `inbound`
      broadcasts before its `i`-th inbound message. */
  ghost predicate SessionSent(log: seq<Delivery>, clients: set<ClientId>, lines: seq<Message>,
                              name: string, inbound: seq<string>, i: nat, end: ReadEnd, today: Date, answer: Date -> Fetch)
  {
    && i <= |inbound|
    && BroadcastsOf(log, clients, lines)
    && Session(name, inbound, end, today, answer) == Prepend(lines, Session(name, inbound[i..], end, today, answer))
  }

  lemma SessionSentStart(name: string, inbound: seq<string>, end: ReadEnd, today: Date, answer: Date -> Fetch, clients: set<ClientId>)
    ensures SessionSent([], clients, [], name, inbound, 0, end, today, answer)
  {
    assert inbound[0..] == inbound;
  }

  /** One more message handled: the record of sends and the rest of the
      session both advance by what `React` says about it. */
  lemma SessionSentStep(before: seq<Delivery>, after: seq<Delivery>, start: nat, clients: set<ClientId>, lines: seq<Message>,
                        name: string, inbound: seq<string>, i: nat, end: ReadEnd, today: Date, answer: Date -> Fetch,
                        raised: Option<Exc>)
    returns (more: seq<Message>)
    requires start <= |before| <= |after| && after[..|before|] == before
    requires SessionSent(before[start..], clients, lines, name, inbound, i, end, today, answer) && i < |inbound|
    requires var r := React(name, inbound[i], today, answer);
      raised == r.raised && BroadcastsOf(after[|before|..], clients, r.lines)
    ensures raised.Some? ==> SessionReported(after[start..], clients, raised, name, inbound, end, today, answer)
    ensures raised.None? ==> SessionSent(after[start..], clients, lines + more, name, inbound, i + 1, end, today, answer)
  {
    var r := React(name, inbound[i], today, answer);
    more := r.lines;
    ExtendLog(before, after, start, clients, lines, r.lines);
    SessionAt(name, inbound, i, end, today, answer);
    PrependPrepend(lines, r.lines, Session(name, inbound[i + 1..], end, today, answer));
  }

  /** The whole of `inbound` handled. */
  lemma SessionSentEnd(log: seq<Delivery>, clients: set<ClientId>, lines: seq<Message>,
                       name: string, inbound: seq<string>, end: ReadEnd, today: Date, answer: Date -> Fetch)
    requires SessionSent(log, clients, lines, name, inbound, |inbound|, end, today, answer)
    ensures SessionReported(log, clients, if end == AbnormalClose then Some(ConnectionClosedError) else None,
                            name, inbound, end, today, answer)
  {
    assert inbound[|inbound|..] == [];
    assert lines + [] == lines;
  }

  /** Every member of `clients` that refuses sends does so as `kind`. */
  predicate FailuresAre(clients: set<ClientId>, link: ClientId -> SendResult, kind: SendResult) {
    forall c :: c in clients && link(c) != Delivered ==> link(c) == kind
  }

  /** A client that refuses sends exists, and `raised` is its exception. */
  ghost predicate FailedSend(clients: set<ClientId>, link: ClientId -> SendResult, raised: Option<Exc>) {
    exists c :: c in clients && link(c) != Delivered && raised == Some(link(c).Raises())
  }

  /** What one inbound message leaves in `log` and raises: with every
      client accepting, what `React` says; otherwise the exception of a
      failing client, after sending the relay to some of the clients. */
  ghost predicate Handled(log: seq<Delivery>, clients: set<ClientId>, link: ClientId -> SendResult, raised: Option<Exc>,
                          name: string, message: string, today: Date, answer: Date -> Fetch)
  {
    if Healthy(clients, link) then
      var r := React(name, message, today, answer);
      raised == r.raised && BroadcastsOf(log, clients, r.lines)
    else FailedSend(clients, link, raised) && PartialBroadcast(log, clients, Relay(name, message))
  }

  /** What a whole session leaves in `log` and raises: with every client
      accepting, or with no inbound message, what `Session` says; otherwise
      the first message already raises the exception of a failing client,
      after sending its relay to some of the clients. */
  ghost predicate Distributed(log: seq<Delivery>, clients: set<ClientId>, link: ClientId -> SendResult, raised: Option<Exc>,
                              name: string, inbound: seq<string>, end: ReadEnd, today: Date, answer: Date -> Fetch)
  {
    && (Healthy(clients, link) || inbound == [] ==> SessionReported(log, clients, raised, name, inbound, end, today, answer))
    && (!Healthy(clients, link) && inbound != [] ==> FailedSend(clients, link, raised) && PartialBroadcast(log, clients, Relay(name, inbound[0])))
  }

  /** The first `i` inbound messages handled without an exception. */
  ghost predicate Progress(log: seq<Delivery>, clients: set<ClientId>, link: ClientId -> SendResult, lines: seq<Message>,
                           name: string, inbound: seq<string>, i: nat, end: ReadEnd, today: Date, answer: Date -> Fetch)
  {
    if Healthy(clients, link) then SessionSent(log, clients, lines, name, inbound, i, end, today, answer)
    else i == 0 && log == []
  }

  lemma ProgressStart(clients: set<ClientId>, link: ClientId -> SendResult, name: string, inbound: seq<string>,
                      end: ReadEnd, today: Date, answer: Date -> Fetch)
    ensures Progress([], clients, link, [], name, inbound, 0, end, today, answer)
  {
    SessionSentStart(name, inbound, end, today, answer, clients);
  }

  lemma AppendAssoc(a: seq<Delivery>, b: seq<Delivery>, c: seq<Delivery>)
    ensures (a + b) + c == a + (b + c)
  {
  }

  /** The `i`-th message handled: either the session stops here, or it
      has made one more step of progress. */
  lemma ProgressStep(log: seq<Delivery>, batch: seq<Delivery>, clients: set<ClientId>, link: ClientId -> SendResult,
                     lines: seq<Message>, name: string, inbound: seq<string>, i: nat, end: ReadEnd, today: Date, answer: Date -> Fetch,
                     raised: Option<Exc>)
    returns (more: seq<Message>)
    requires Progress(log, clients, link, lines, name, inbound, i, end, today, answer) == true && i < |inbound|
    requires Handled(batch, clients, link, raised, name, inbound[i], today, answer) == true
    ensures raised.Some? ==> Distributed(log + batch, clients, link, raised, name, inbound, end, today, answer)
    ensures raised.None? ==> Progress(log + batch, clients, link, lines + more, name, inbound, i + 1, end, today, answer)
  {
    var after := log + batch;
    assert after[..|log|] == log && log[0..] == log && after[|log|..] == batch && after[0..] == after;
    if Healthy(clients, link) {
      more := SessionSentStep(log, after, 0, clients, lines, name, inbound, i, end, today, answer, raised);
    } else {
      more := [];
      assert after == batch;
    }
  }

  lemma ProgressEnd(log: seq<Delivery>, clients: set<ClientId>, link: ClientId -> SendResult, lines: seq<Message>,
                    name: string, inbound: seq<string>, end: ReadEnd, today: Date, answer: Date -> Fetch, raised: Option<Exc>)
    requires Progress(log, clients, link, lines, name, inbound, |inbound|, end, today, answer) == true
    requires raised == if end == AbnormalClose then Some(ConnectionClosedError) else None
    ensures Distributed(log, clients, link, raised, name, inbound, end, today, answer)
  {
    if Healthy(clients, link) {
      SessionSentEnd(log, clients, lines, name, inbound, end, today, answer);
    }
  }

  /** Chat without the command is relayed, one line per message, in order,
      and nothing else is broadcast. */
  lemma {:induction false} PlainChatRelaysOnly(name: string, inbound: seq<string>, end: ReadEnd, today: Date, answer: Date -> Fetch)
    requires forall i :: 0 <= i < |inbound| ==> !IsExchange(inbound[i])
    ensures var r := Session(name, inbound, end, today, answer);
      && r.lines == seq(|inbound|, i requires 0 <= i < |inbound| => Relay(name, inbound[i]))
      && r.raised == (if end == AbnormalClose then Some(ConnectionClosedError) else None)
  {
    if inbound != [] {
      PlainChatRelaysOnly(name, inbound[1..], end, today, answer);
    }
  }

  /** "exchange 3" asks for three days. */
  lemma ExchangeThreeDays()
    ensures IsExchange("exchange 3")
    ensures ParseDays(DayArgument("exchange 3"[8..])) == Some(3)
  {
    assert "exchange 3"[8..] == " 3";
    assert Lower("exchange 3")[..8] == "exchange";
    assert MatchesAt(" 3", 0);
    DayArgumentCount(" 3", 0);
  }

  /** "exchange rates 3" passes " rates 3" on, the search matches its end,
      and `int("rates 3")` fails: the relay goes out, then ValueError. */
  lemma ExchangeWordBeforeCount(name: string, today: Date, answer: Date -> Fetch)
    ensures React(name, "exchange rates 3", today, answer) == Reaction([Relay(name, "exchange rates 3")], Some(ValueError))
  {
    var message := "exchange rates 3";
    var s := message[8..];
    assert s == " rates 3";
    assert Lower(message)[..8] == "exchange";
    assert MatchesAt(s, 6);
    DayArgumentWordFails(s, 6, 1);
  }

  // ---------------------------------------------------------------------------
  // the server

  class Server {
    /** The connected clients (the class attribute `clients`). */
    var clients: set<ClientId>
    /** The `name` attribute each connection was given when it registered. */
    var names: map<ClientId, string>
    /** Every `client.send(message)` made so far, in order. */
    var sent: seq<Delivery>

    constructor ()
      ensures clients == {} && names == map[] && sent == []
    {
      clients := {};
      names := map[];
      sent := [];
    }

    /** `register(ws)`, with the generated name passed in. */
    method Register(ws: ClientId, name: string)
      modifies this
      ensures clients == old(clients) + {ws}
      ensures names == old(names)[ws := name]
      ensures sent == old(sent)
    {
      names := names[ws := name];
      clients := clients + {ws};
    }

    /** `unregister(ws)`: `set.remove`, which raises unless `ws` is registered. */
    method Unregister(ws: ClientId)
      requires ws in clients
      modifies this
      ensures clients == old(clients) - {ws}
      ensures names == old(names) && sent == old(sent)
    {
      clients := clients - {ws};
    }

    /** `send_to_clients(message)`: one send per client, in set order; the
        first send that raises ends the broadcast with that exception. */
    method SendToClients(message: Message, link: ClientId -> SendResult) returns (raised: Option<Exc>)
      modifies this`sent
      ensures |old(sent)| <= |sent| && sent[..|old(sent)|] == old(sent)
      ensures PartialBroadcast(sent[|old(sent)|..], clients, message)
      ensures raised == None <==> Healthy(clients, link)
      ensures raised == None ==> IsBroadcast(sent[|old(sent)|..], clients, message)
      ensures raised != None ==> exists c :: c in clients && link(c) != Delivered && raised == Some(link(c).Raises())
      ensures raised != None ==> forall d :: d in sent[|old(sent)|..] ==> link(d.to) == Delivered
    {
      if clients == {} {
        return None;
      }
      var pending := clients;
      ghost var batch: seq<Delivery> := [];
      while pending != {}
        invariant sent == old(sent) + batch
        invariant Sending(batch, clients, pending, message, link)
        decreases pending
      {
        var client :| client in pending;
        if link(client) != Delivered {
          SendingStop(batch, clients, pending, message, link, client);
          assert sent[|old(sent)|..] == batch;
          return Some(link(client).Raises());
        }
        var d := Delivery(client, message);
        SendingStep(batch, clients, pending, message, link, client);
        sent := sent + [d];
        batch := batch + [d];
        pending := pending - {client};
      }
      SendingDone(batch, clients, message, link);
      assert sent[|old(sent)|..] == batch;
      return None;
    }

    /** The loop of `show_rates`: one `RATE_STR` line per result, each
        broadcast before the next result is looked at. */
    method SendRateLines(rates: seq<Slot>, link: ClientId -> SendResult) returns (raised: Option<Exc>)
      requires Shaped(rates)
      modifies this`sent
      ensures |old(sent)| <= |sent| && sent[..|old(sent)|] == old(sent)
      ensures LinesReported(sent[|old(sent)|..], clients, link, raised, rates)
    {
      ghost var plan := RateLines(rates);
      assert rates[0..] == rates;
      ghost var lines: seq<Message> := [];
      var k := 0;
      while k < |rates|
        invariant |old(sent)| <= |sent| && sent[..|old(sent)|] == old(sent)
        invariant LinesSent(sent[|old(sent)|..], clients, lines, plan, rates, k)
        invariant k > 0 ==> Healthy(clients, link)
      {
        var dr := rates[k];
        if dr.Raised? {
          RateLinesRaisedAt(rates, k);
          LinesSentStop(sent[|old(sent)|..], clients, link, lines, rates, k, Some(TypeError));
          return Some(TypeError);
        }
        var day :| day in dr.rates;  // next(iter(dr))
        var dayRates := dr.rates[day];
        if "EUR" !in dayRates || "USD" !in dayRates {
          RateLinesAt(rates, k, day);
          LinesSentStop(sent[|old(sent)|..], clients, link, lines, rates, k, Some(KeyError));
          return Some(KeyError);
        }
        var line := RateLine(day, dayRates["EUR"], dayRates["USD"]);
        ghost var before := sent;
        raised := SendToClients(line, link);
        if raised.Some? {
          return;
        }
        LinesSentStep(before, sent, |old(sent)|, clients, lines, plan, rates, k, day);
        lines := lines + [line];
        k := k + 1;
      }
      LinesSentStop(sent[|old(sent)|..], clients, link, lines, rates, k, None);
      return None;
    }

    /** `show_rates(days)`: the day argument, the query for EUR and USD, and
        the rate lines. */
    method ShowRates(days: string, today: Date, answer: Date -> Fetch, link: ClientId -> SendResult) returns (raised: Option<Exc>)
      modifies this`sent
      ensures |old(sent)| <= |sent| && sent[..|old(sent)|] == old(sent)
      ensures RatesShown(sent[|old(sent)|..], clients, link, raised, days, today, answer)
    {
      var dayArg := DayArgument(days);
      var pbApi := new ExchangeRates();
      var err := pbApi.Init(dayArg, DEFAULT_CURRENCIES, today);
      ValidCodesBoth();
      if err.Some? {
        RatesShownRejected(clients, link, days, today, answer);
        assert sent[|old(sent)|..] == [];
        return Some(ValueError);
      }
      var rates := pbApi.Query(answer);
      ghost var count := ParseDays(dayArg).value;
      ShowRatesPlanQuery(days, today, answer, count);
      raised := SendRateLines(rates, link);
      RatesShownAccepted(sent[|old(sent)|..], clients, link, raised, days, today, answer, count);
    }

    /** The body of the loop in `distrubute(ws)`: relay one inbound message,
        then run the command it carries. */
    method HandleMessage(name: string, message: string, today: Date, answer: Date -> Fetch, link: ClientId -> SendResult)
      returns (raised: Option<Exc>, ghost batch: seq<Delivery>)
      modifies this`sent
      ensures sent == old(sent) + batch
      ensures Handled(batch, clients, link, raised, name, message, today, answer)
    {
      var relay := Relay(name, message);
      raised := SendToClients(relay, link);
      batch := sent[|old(sent)|..];
      if raised.Some? {
        return;
      }
      OneBroadcast(sent[|old(sent)|..], clients, relay);
      if IsExchange(message) {
        // the append to exchange.log is not modelled
        ghost var mid := sent;
        assert mid[|old(sent)|..][..|clients|] == mid[|old(sent)|..];
        raised := ShowRates(message[8..], today, answer, link);
        ghost var plan := ShowRatesPlan(message[8..], today, answer);
        ExtendLog(mid, sent, |old(sent)|, clients, [relay], plan.lines);
        batch := sent[|old(sent)|..];
      }
    }

    /** `distrubute(ws)`: handle each inbound message in turn; the first
        exception ends the loop. */
    method Distribute(ws: ClientId, inbound: seq<string>, end: ReadEnd, today: Date, answer: Date -> Fetch, link: ClientId -> SendResult)
      returns (raised: Option<Exc>, ghost log: seq<Delivery>)
      requires ws in names
      modifies this`sent
      ensures sent == old(sent) + log
      ensures Distributed(log, clients, link, raised, names[ws], inbound, end, today, answer) == true
    {
      var name := names[ws];
      ProgressStart(clients, link, name, inbound, end, today, answer);
      log := [];
      ghost var lines: seq<Message> := [];
      // `P(...) == true` keeps a session fact whole: it is proved in one
      // piece, from the lemma that states it, not conjunct by conjunct.
      var i := 0;
      while i < |inbound|
        invariant i <= |inbound|
        invariant sent == old(sent) + log
        invariant Progress(log, clients, link, lines, name, inbound, i, end, today, answer) == true
      {
        ghost var batch;
        raised, batch := HandleMessage(name, inbound[i], today, answer, link);
        ghost var more := ProgressStep(log, batch, clients, link, lines, name, inbound, i, end, today, answer, raised);
        AppendAssoc(old(sent), log, batch);
        log := log + batch;
        if raised.Some? {
          return;
        }
        lines := lines + more;
        i := i + 1;
      }
      raised := if end == AbnormalClose then Some(ConnectionClosedError) else None;
      ProgressEnd(log, clients, link, lines, name, inbound, end, today, answer, raised);
    }

    /** `ws_handler(ws)`: register, run the session, swallow
        ConnectionClosedOK, and unregister on every way out. */
    method WsHandler(ws: ClientId, name: string, inbound: seq<string>, end: ReadEnd, today: Date, answer: Date -> Fetch, link: ClientId -> SendResult)
      returns (raised: Option<Exc>)
      modifies this
      ensures clients == old(clients) - {ws}
      ensures ws !in old(clients) ==> clients == old(clients)
      ensures names == old(names)[ws := name]
      ensures |old(sent)| <= |sent| && sent[..|old(sent)|] == old(sent)
      ensures raised != Some(ConnectionClosedOK)
      ensures Healthy(old(clients) + {ws}, link) ==>
        var r := Session(name, inbound, end, today, answer);
        raised == r.raised && BroadcastsOf(sent[|old(sent)|..], old(clients) + {ws}, r.lines)
      ensures inbound == [] ==>
        sent == old(sent) && raised == (if end == AbnormalClose then Some(ConnectionClosedError) else None)
      ensures !Healthy(old(clients) + {ws}, link) && inbound != [] ==>
        PartialBroadcast(sent[|old(sent)|..], old(clients) + {ws}, Relay(name, inbound[0]))
      ensures !Healthy(old(clients) + {ws}, link) && inbound != [] && FailuresAre(old(clients) + {ws}, link, ClosedOK) ==>
        raised == None
      ensures !Healthy(old(clients) + {ws}, link) && inbound != [] && FailuresAre(old(clients) + {ws}, link, ClosedError) ==>
        raised == Some(ConnectionClosedError)
    {
      Register(ws, name);
      ghost var log;
      raised, log := Distribute(ws, inbound, end, today, answer, link);
      assert sent[|old(sent)|..] == log;
      if raised == Some(ConnectionClosedOK) {
        raised := None;
      }
      Unregister(ws);
    }
  }
}
