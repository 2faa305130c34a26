/**
 * The bulk mutator: walk the incident listing in order and, for each
 * incident, either print a dry-run notice or send a status update, keeping
 * a running total that is printed on every way out.
 *
 * The remote API is abstract: a listing is the finite sequence of incidents
 * it yields, each paired with what the server answers to its update, and
 * possibly a client error raised after the last yielded incident (a page
 * fetch that fails). Console output is the sequence of printed lines.
 */
module Mutator {
  import opened Wrappers

  /** An incident record as the listing yields it. */
  datatype Incident = Incident(id: string, self: string)

  /** The client library's error; `response` is the response text when a response is attached. */
  datatype ClientError = ClientError(response: Option<string>)

  /** The server's answer to the update of one incident. */
  datatype UpdateOutcome = Accepted | Rejected(error: ClientError)

  datatype Listed = Listed(incident: Incident, update: UpdateOutcome)

  /** What the listing yields, and the fetch error that ends it, if any. */
  datatype Listing = Listing(items: seq<Listed>, fetchFailure: Option<ClientError>)

  /** The JSON body of an update: type, id and target status. */
  datatype Payload = Payload(kind: string, id: string, status: string)

  /** One update request: the resource it is sent to and its body. */
  datatype UpdateRequest = UpdateRequest(url: string, payload: Payload)

  /** How the run ends: normally, or by re-raising a client error. */
  datatype Outcome = Finished | Raised(error: ClientError)

  /** Everything a run leaves behind. */
  datatype RunResult = RunResult(total: nat, log: seq<string>, sent: seq<UpdateRequest>, outcome: Outcome)

  // ---------------------------------------------------------------------
  // Lines and requests

  /** The status an update asks for: the action with a "d" appended. */
  function TargetStatus(action: string): (status: string)
    ensures |status| == |action| + 1 && status[..|action|] == action && status[|action|] == 'd'
  {
    action + "d"
  }

  /** The update of one incident: sent to its own resource, naming it and the target status. */
  function UpdateFor(action: string, incident: Incident): (req: UpdateRequest)
    ensures req.url == incident.self
    ensures req.payload.kind == "incident_reference" && req.payload.id == incident.id
    ensures req.payload.status == TargetStatus(action)
  {
    UpdateRequest(incident.self, Payload("incident_reference", incident.id, TargetStatus(action)))
  }

  /** The dry-run notice names the incident right after its 23-character lead-in. */
  function DryRunNotice(id: string): (line: string)
    ensures |line| == 23 + |id| + 32
    ensures line[23..23 + |id|] == id
  {
    "Not acting on incident " + id + " because -n/--dry-run specified."
  }

  /** The confirmation starts with the target status and ends with the incident id. */
  function Confirmation(action: string, id: string): (line: string)
    ensures |line| == |action| + 11 + |id|
    ensures line[..|action| + 1] == TargetStatus(action)
    ensures line[|line| - |id|..] == id
  {
    action + "d incident " + id
  }

  /** The line printed for an incident that was processed. */
  function NoticeFor(dryRun: bool, action: string, incident: Incident): string
  {
    if dryRun then DryRunNotice(incident.id) else Confirmation(action, incident.id)
  }

  function DigitChar(d: nat): char
    requires d < 10
  {
    (d + '0' as int) as char
  }

  function DigitValue(c: char): nat
  {
    if '0' <= c <= '9' then (c as int - '0' as int) as nat else 0
  }

  /** `%d` of a non-negative integer. */
  function Decimal(n: nat): (s: string)
    ensures |s| >= 1
    ensures forall i :: 0 <= i < |s| ==> '0' <= s[i] <= '9'
  {
    if n < 10 then [DigitChar(n)] else Decimal(n / 10) + [DigitChar(n % 10)]
  }

  /** Reads a string of decimal digits. */
  function ParseDecimal(s: string): nat
  {
    if |s| == 0 then 0 else ParseDecimal(s[..|s| - 1]) * 10 + DigitValue(s[|s| - 1])
  }

  /** The total is printed in a form it can be read back from. */
  lemma {:induction false} ParseDecimalOfDecimal(n: nat)
    ensures ParseDecimal(Decimal(n)) == n
  {
    var s := Decimal(n);
    if n < 10 {
      assert s[..0] == [];
    } else {
      ParseDecimalOfDecimal(n / 10);
      assert s[..|s| - 1] == Decimal(n / 10);
      assert DigitValue(s[|s| - 1]) == n % 10;
    }
  }

  /** The summary line: a 9-character lead-in, the total's digits, and a 19-character tail. */
  function TotalLine(total: nat): (line: string)
    ensures |line| >= 9 + 1 + 19
  {
    "Total of " + Decimal(total) + " incidents updated."
  }

  /** The summary line of a one-digit total, spelled out. */
  lemma TotalLineOfDigit(total: nat)
    requires total < 10
    ensures TotalLine(total) == "Total of " + [DigitChar(total)] + " incidents updated."
  {
    assert Decimal(total) == [DigitChar(total)];
  }

  /** The total reads back from the summary line. */
  lemma TotalLineReadsBack(total: nat)
    ensures var line := TotalLine(total); ParseDecimal(line[9..|line| - 19]) == total
  {
    var line := TotalLine(total);
    assert line[9..|line| - 19] == Decimal(total);
    ParseDecimalOfDecimal(total);
  }

  /** The response text of an error, printed before it is re-raised, when there is one. */
  function BodyLines(error: Option<ClientError>): (lines: seq<string>)
    ensures |lines| <= 1
    ensures |lines| == 1 <==> error.Some? && error.value.response.Some?
    ensures |lines| == 1 ==> lines[0] == error.value.response.value
  {
    if error.Some? && error.value.response.Some? then [error.value.response.value] else []
  }

  // ---------------------------------------------------------------------
  // The specification of a run

  /** The position of the first incident whose update is rejected, or the length if none is. */
  function FirstRejected(items: seq<Listed>): (k: nat)
    ensures k <= |items|
    ensures forall j :: 0 <= j < k ==> items[j].update.Accepted?
    ensures k < |items| ==> items[k].update.Rejected?
  {
    if |items| == 0 then 0
    else if items[0].update.Rejected? then 0
    else 1 + FirstRejected(items[1..])
  }

  /** How many incidents are processed and counted: all in a dry run, else those before the first rejection. */
  function Processed(dryRun: bool, items: seq<Listed>): nat
  {
    if dryRun then |items| else FirstRejected(items)
  }

  /** The client error the run ends with, if any: a rejected update first, else the fetch failure. */
  function RaisedError(dryRun: bool, listing: Listing): Option<ClientError>
  {
    var items := listing.items;
    if !dryRun && FirstRejected(items) < |items| then Some(items[FirstRejected(items)].update.error)
    else listing.fetchFailure
  }

  /** How many update requests are sent: the processed ones plus the one that failed. */
  function Attempted(dryRun: bool, items: seq<Listed>): nat
  {
    if dryRun then 0
    else if FirstRejected(items) < |items| then FirstRejected(items) + 1
    else |items|
  }

  /** The lines printed for the processed incidents, in listing order. */
  function Notices(dryRun: bool, action: string, items: seq<Listed>): seq<string>
  {
    seq(|items|, j requires 0 <= j < |items| => NoticeFor(dryRun, action, items[j].incident))
  }

  /** The update requests for the given incidents, in listing order. */
  function Updates(action: string, items: seq<Listed>): seq<UpdateRequest>
  {
    seq(|items|, j requires 0 <= j < |items| => UpdateFor(action, items[j].incident))
  }

  lemma NoticesSnoc(dryRun: bool, action: string, items: seq<Listed>, k: nat)
    requires k < |items|
    ensures Notices(dryRun, action, items[..k + 1])
         == Notices(dryRun, action, items[..k]) + [NoticeFor(dryRun, action, items[k].incident)]
  {
    assert items[..k + 1] == items[..k] + [items[k]];
  }

  lemma UpdatesSnoc(action: string, items: seq<Listed>, k: nat)
    requires k < |items|
    ensures Updates(action, items[..k + 1]) == Updates(action, items[..k]) + [UpdateFor(action, items[k].incident)]
  {
    assert items[..k + 1] == items[..k] + [items[k]];
  }

  /** What one run leaves behind, stated in closed form. */
  function Expected(dryRun: bool, action: string, listing: Listing): (r: RunResult)
    ensures r.total <= |listing.items|
    ensures |r.log| == r.total + |BodyLines(RaisedError(dryRun, listing))| + 1
    ensures r.log[|r.log| - 1] == TotalLine(r.total)
    ensures dryRun ==> r.sent == []
    ensures !dryRun ==> r.total <= |r.sent| <= r.total + 1
  {
    var items := listing.items;
    var n := Processed(dryRun, items);
    var error := RaisedError(dryRun, listing);
    RunResult(
      n,
      Notices(dryRun, action, items[..n]) + BodyLines(error) + [TotalLine(n)],
      Updates(action, items[..Attempted(dryRun, items)]),
      if error.Some? then Raised(error.value) else Finished)
  }

  // ---------------------------------------------------------------------
  // What a run promises

  /** A dry run sends nothing, prints one notice per listed incident in order, and counts them all. */
  lemma DryRunOnlyReports(action: string, listing: Listing)
    ensures var r := Expected(true, action, listing);
      && r.sent == []
      && r.total == |listing.items|
      && |r.log| >= |listing.items| + 1
      && (forall j :: 0 <= j < |listing.items| ==> r.log[j] == DryRunNotice(listing.items[j].incident.id))
      && (r.outcome == if listing.fetchFailure.Some? then Raised(listing.fetchFailure.value) else Finished)
  {
    var items := listing.items;
    assert items[..|items|] == items;
  }

  /**
   * A real run sends its updates in listing order, each to the incident's
   * own resource with the action-derived status, and confirms each counted
   * incident in the same order.
   */
  lemma UpdatesFollowListing(action: string, listing: Listing)
    ensures var r := Expected(false, action, listing);
      && |r.sent| <= |listing.items|
      && r.total <= |r.sent|
      && (forall j :: 0 <= j < |r.sent| ==>
            && r.sent[j].url == listing.items[j].incident.self
            && r.sent[j].payload == Payload("incident_reference", listing.items[j].incident.id, action + "d"))
      && (forall j :: 0 <= j < r.total ==> r.log[j] == Confirmation(action, listing.items[j].incident.id))
  {
  }

  /**
   * When the update of the k-th incident is the first to fail, the run sends
   * exactly k + 1 requests, counts k (the failed one is not counted), prints
   * the k confirmations, then the response text if any, then the total, and
   * re-raises the error.
   */
  lemma RejectedUpdateStopsRun(action: string, listing: Listing, k: nat)
    requires k < |listing.items|
    requires listing.items[k].update.Rejected?
    requires forall j :: 0 <= j < k ==> listing.items[j].update.Accepted?
    ensures var r := Expected(false, action, listing);
      && r.total == k
      && r.sent == Updates(action, listing.items[..k + 1])
      && r.log == Notices(false, action, listing.items[..k]) + BodyLines(Some(listing.items[k].update.error)) + [TotalLine(k)]
      && r.outcome == Raised(listing.items[k].update.error)
  {
  }

  /**
   * On every path the last printed line is the total; when the run re-raises
   * an error whose response is attached, the response text comes just before it.
   * The run raises exactly when an update is rejected or the fetch fails.
   */
  lemma TotalIsPrintedLast(dryRun: bool, action: string, listing: Listing)
    ensures var r := Expected(dryRun, action, listing);
      && |r.log| >= 1
      && r.log[|r.log| - 1] == TotalLine(r.total)
      && (r.outcome.Raised? && r.outcome.error.response.Some? ==>
            |r.log| >= 2 && r.log[|r.log| - 2] == r.outcome.error.response.value)
      && (r.outcome.Raised? <==>
            (!dryRun && FirstRejected(listing.items) < |listing.items|) || listing.fetchFailure.Some?)
  {
  }

  /**
   * A fetch failure before any incident is yielded: nothing is counted or
   * sent, and the log is the response text, if any, then "Total of 0 ...".
   */
  lemma FetchFailureBeforeAnyIncident(dryRun: bool, action: string, error: ClientError)
    ensures var r := Expected(dryRun, action, Listing([], Some(error)));
      && r.total == 0 && r.sent == []
      && r.log == BodyLines(Some(error)) + ["Total of 0 incidents updated."]
      && r.outcome == Raised(error)
  {
    var items: seq<Listed> := [];
    var r := Expected(dryRun, action, Listing(items, Some(error)));
    assert r.total == 0;
    assert Notices(dryRun, action, items[..0]) == [];
    assert r.log == BodyLines(Some(error)) + [TotalLine(0)];
    TotalLineOfDigit(0);
    assert "Total of " + [DigitChar(0)] + " incidents updated." == "Total of 0 incidents updated.";
  }

  /** A run that ends normally has processed every listed incident. */
  lemma FinishedRunCountsEverything(dryRun: bool, action: string, listing: Listing)
    ensures var r := Expected(dryRun, action, listing);
      r.outcome == Finished ==> r.total == |listing.items| && listing.fetchFailure.None?
  {
  }

  /**
   * Two incidents, resolve, no dry run, both accepted: two requests with
   * status "resolved", two confirmations, then the total of 2.
   */
  lemma ResolveTwoIncidents(i1: Incident, i2: Incident)
    ensures var r := Expected(false, "resolve", Listing([Listed(i1, Accepted), Listed(i2, Accepted)], None));
      && r.sent == [UpdateRequest(i1.self, Payload("incident_reference", i1.id, "resolved")),
                    UpdateRequest(i2.self, Payload("incident_reference", i2.id, "resolved"))]
      && r.log == ["resolved incident " + i1.id, "resolved incident " + i2.id, "Total of 2 incidents updated."]
      && r.outcome == Finished
  {
    var items := [Listed(i1, Accepted), Listed(i2, Accepted)];
    assert FirstRejected(items) == 2 by {
      assert FirstRejected(items[1..]) == 1 by { assert FirstRejected(items[1..][1..]) == 0; }
    }
    assert items[..2] == items;
    ResolvedPair(i1, i2);
    assert TotalLine(2) == "Total of 2 incidents updated." by {
      TotalLineOfDigit(2);
      assert "Total of " + [DigitChar(2)] + " incidents updated." == "Total of 2 incidents updated.";
    }
  }

  /** The confirmations and requests of resolving two incidents, spelled out. */
  lemma ResolvedPair(i1: Incident, i2: Incident)
    ensures var items := [Listed(i1, Accepted), Listed(i2, Accepted)];
      && Notices(false, "resolve", items) == ["resolved incident " + i1.id, "resolved incident " + i2.id]
      && Updates("resolve", items) == [UpdateRequest(i1.self, Payload("incident_reference", i1.id, "resolved")),
                                       UpdateRequest(i2.self, Payload("incident_reference", i2.id, "resolved"))]
  {
    assert TargetStatus("resolve") == "resolved";
    assert Confirmation("resolve", i1.id) == "resolved incident " + i1.id;
    assert Confirmation("resolve", i2.id) == "resolved incident " + i2.id;
  }

  /**
   * Two incidents, the second update rejected with a response: one
   * confirmation, the response text, and a total of 1, not 2.
   */
  lemma SecondUpdateRejected(i1: Incident, i2: Incident, text: string)
    ensures var r := Expected(false, "resolve",
                              Listing([Listed(i1, Accepted), Listed(i2, Rejected(ClientError(Some(text))))], None));
      && |r.sent| == 2
      && r.log == ["resolved incident " + i1.id, text, "Total of 1 incidents updated."]
      && r.outcome == Raised(ClientError(Some(text)))
  {
    var items := [Listed(i1, Accepted), Listed(i2, Rejected(ClientError(Some(text))))];
    assert FirstRejected(items) == 1 by { assert FirstRejected(items[1..]) == 0; }
    assert items[..1] == [items[0]];
    TotalLineOfDigit(1);
    assert "Total of " + [DigitChar(1)] + " incidents updated." == "Total of 1 incidents updated.";
    assert Confirmation("resolve", i1.id) == "resolved incident " + i1.id;
    assert Notices(false, "resolve", items[..1]) == ["resolved incident " + i1.id];
  }

  // ---------------------------------------------------------------------
  // The loop

  /**
   * The try/except/finally around the loop over the listing. A rejected
   * update stops the loop before the total is incremented.
   */
  method RunUpdates(dryRun: bool, action: string, listing: Listing) returns (r: RunResult)
    ensures r == Expected(dryRun, action, listing)
  {
    var items := listing.items;
    var total: nat := 0;
    var log: seq<string> := [];
    var sent: seq<UpdateRequest> := [];
    var error: Option<ClientError> := None;
    var i := 0;
    while i < |items| && error.None?
      invariant 0 <= i <= |items|
      invariant error.None? ==> total == i && (!dryRun ==> forall j :: 0 <= j < i ==> items[j].update.Accepted?)
      invariant error.Some? ==> !dryRun && 1 <= i && total == i - 1 && items[i - 1].update == Rejected(error.value)
                                && forall j :: 0 <= j < i - 1 ==> items[j].update.Accepted?
      invariant log == Notices(dryRun, action, items[..total])
      invariant sent == if dryRun then [] else Updates(action, items[..i])
    {
      var item := items[i];
      if dryRun {
        NoticesSnoc(dryRun, action, items, i);
        log := log + [DryRunNotice(item.incident.id)];
        total := total + 1;
      } else {
        UpdatesSnoc(action, items, i);
        sent := sent + [UpdateFor(action, item.incident)];
        match item.update
        case Rejected(e) =>
          error := Some(e);
        case Accepted =>
          NoticesSnoc(dryRun, action, items, i);
          log := log + [Confirmation(action, item.incident.id)];
          total := total + 1;
      }
      i := i + 1;
    }
    assert total == Processed(dryRun, items);
    assert !dryRun ==> i == Attempted(dryRun, items);
    assert error.Some? || RaisedError(dryRun, listing) == listing.fetchFailure;
    if error.None? {
      error := listing.fetchFailure;
    }
    var outcome := Finished;
    if error.Some? {
      if error.value.response.Some? {
        log := log + [error.value.response.value];
      }
      outcome := Raised(error.value);
    }
    assert log == Notices(dryRun, action, items[..total]) + BodyLines(error);
    log := log + [TotalLine(total)];
    r := RunResult(total, log, sent, outcome);
  }
}
