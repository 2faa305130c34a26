/**
 * One invocation of the script: build the filters into the shared
 * parameters, list the matching incidents with them, and run the updates.
 */
module MassUpdate {
  import opened Wrappers
  import opened Filters
  import opened Mutator

  /**
   * The parsed command line as the core reads it. The API key and the
   * requester email only configure the remote session and are not modelled.
   */
  datatype Args = Args(userId: Option<string>, serviceId: Option<string>, action: string, dryRun: bool)

  /**
   * The whole core. `server` stands for the remote API: given the query
   * parameters it yields the listing that the run walks.
   */
  method MassUpdateIncidents(parameters: Parameters, args: Args, server: Params -> Listing)
    returns (query: Params, r: RunResult)
    modifies parameters
    ensures parameters.entries == Built(old(parameters.entries), args.userId, args.serviceId, args.action)
    ensures query == parameters.entries
    ensures r == Expected(args.dryRun, args.action, server(query))
  {
    parameters.Build(args.userId, args.serviceId, args.action);
    query := parameters.entries;
    r := RunUpdates(args.dryRun, args.action, server(query));
  }

  // ---------------------------------------------------------------------
  // The --action choices

  /** The `--action` choices as the command line declares them. */
  predicate CliAcceptsAsWritten(action: string)
  {
    action == "acknowldege" || action == "resolve"
  }

  /** The choices evidently intended. */
  predicate CliAccepts(action: string)
  {
    action == "acknowledge" || action == "resolve"
  }

  /**
   * As declared, the command line lets the misspelt action through; the
   * builder then writes no status filter, the updates ask for the status
   * "acknowldeged", and no accepted action ever asks for "acknowledged".
   */
  lemma AsWrittenChoicesCannotAcknowledge(prior: Params)
    ensures CliAcceptsAsWritten("acknowldege") && !CliAcceptsAsWritten("acknowledge")
    ensures StatusFilter("acknowldege") == None
    ensures SameAt(prior, Built(prior, None, None, "acknowldege"), StatusesKey)
    ensures TargetStatus("acknowldege") == "acknowldeged"
    ensures forall a :: CliAcceptsAsWritten(a) ==> TargetStatus(a) != "acknowledged"
  {
    assert "acknowldege" + "d" == "acknowldeged";
    assert "resolve" + "d" == "resolved";
  }

  /**
   * With the intended choices every accepted action writes a status filter,
   * asks for a real incident status, and that target status is not among
   * the statuses the filter selects.
   */
  lemma IntendedChoicesSelectFilterAndStatus(prior: Params, userId: Option<string>, serviceId: Option<string>, action: string)
    requires CliAccepts(action)
    ensures StatusFilter(action).Some?
    ensures StatusesKey in Built(prior, userId, serviceId, action)
    ensures Built(prior, userId, serviceId, action)[StatusesKey] == List(StatusFilter(action).value)
    ensures TargetStatus(action) == (if action == "resolve" then "resolved" else "acknowledged")
    ensures TargetStatus(action) !in StatusFilter(action).value
  {
    assert "acknowledge" + "d" == "acknowledged";
    assert "resolve" + "d" == "resolved";
  }
}
