/** The configuration: the properties file and the command line, checked
    field by field; which fields are required depends on the modes. */
module Properties {
  import opened Wrappers

  /** The command line after parsing: the properties file path (it has a
      default), the modes and the ticket limit (default 100). */
  datatype Args = Args(propertiesFilePath: string, mode: seq<string>, maxNbTicketsToAnalyze: int)

  /** The checked configuration. A field of a mode that is not selected is `None`. */
  datatype Config = Config(
    linearApiKey: string,
    notionApiKey: string,
    teamKey: string,
    mode: seq<string>,
    ticketAnalysisDbId: Option<string>,
    linearTicketRequestTemplate: Option<string>,
    bugAnalysisDbId: Option<string>,
    linearBugRequestTemplate: Option<string>,
    cycleAnalysisDbId: Option<string>,
    linearCycleRequestTemplate: Option<string>,
    maxNbTicketsToAnalyze: Option<int>)

  /** `_validate_str`: present and not empty, then unchanged. */
  function ValidateStr(value: Option<string>): (r: Result<string>)
    ensures r.Ok? <==> value.Some? && |value.value| > 0
    ensures r.Ok? ==> r.value == value.value
    ensures r.Err? ==> r.error == AssertionError
  {
    if value.None? then Err(AssertionError)
    else if |value.value| == 0 then Err(AssertionError)
    else Ok(value.value)
  }

  /** `_validate_int`: positive, then unchanged. */
  function ValidateInt(value: int): (r: Result<int>)
    ensures r.Ok? <==> value > 0
    ensures r.Ok? ==> r.value == value
    ensures r.Err? ==> r.error == AssertionError
  {
    if value > 0 then Ok(value) else Err(AssertionError)
  }

  predicate AllNonEmpty(items: seq<string>) {
    forall i :: 0 <= i < |items| ==> |items[i]| > 0
  }

  /** Each item through `_validate_str`, in order. */
  function ValidateEach(items: seq<string>): (r: Result<seq<string>>)
    ensures r.Ok? <==> AllNonEmpty(items)
    ensures r.Ok? ==> r.value == items
    ensures r.Err? ==> r.error == AssertionError
  {
    if items == [] then Ok([])
    else
      var first :- ValidateStr(Some(items[0]));
      var rest :- ValidateEach(items[1..]);
      Ok([first] + rest)
  }

  /** `_validate_list_str`: not empty and every item valid; the same list. */
  function ValidateListStr(value: seq<string>): (r: Result<seq<string>>)
    ensures r.Ok? <==> |value| > 0 && AllNonEmpty(value)
    ensures r.Ok? ==> r.value == value && |r.value| == |value|
    ensures r.Err? ==> r.error == AssertionError
  {
    if |value| == 0 then Err(AssertionError) else ValidateEach(value)
  }

  /** A property that the file defines with a non-empty value. */
  predicate Defined(file: map<string, string>, key: string) {
    key in file && |file[key]| > 0
  }

  /** `_validate_str(properties.get(key).data)`: a property the file lacks
      has no `.data`; an empty one fails the check. */
  function Lookup(file: map<string, string>, key: string): (r: Result<string>)
    ensures r.Ok? <==> Defined(file, key)
    ensures r.Ok? ==> r.value == file[key]
    ensures key !in file ==> r == Err(AttributeError(key))
    ensures key in file && !Defined(file, key) ==> r == Err(AssertionError)
  {
    if key !in file then Err(AttributeError(key)) else ValidateStr(Some(file[key]))
  }

  /** The two fields of a mode: both checked when the mode is selected, both
      `None` otherwise. */
  function ModeFields(selected: bool, file: map<string, string>, dbKey: string, templateKey: string)
    : (r: Result<(Option<string>, Option<string>)>)
    ensures r.Ok? <==> !selected || (Defined(file, dbKey) && Defined(file, templateKey))
    ensures r.Ok? && selected ==> r.value == (Some(file[dbKey]), Some(file[templateKey]))
    ensures r.Ok? && !selected ==> r.value == (None, None)
  {
    if selected then
      var db :- Lookup(file, dbKey);
      var template :- Lookup(file, templateKey);
      Ok((Some(db), Some(template)))
    else Ok((None, None))
  }

  /** `Properties()`: the path, the three common properties, the modes, the
      fields of each selected mode, then the ticket limit when a ticket or
      bug analysis is selected; the first failing check ends the load. */
  function Load(args: Args, file: map<string, string>): Result<Config> {
    var _ :- ValidateStr(Some(args.propertiesFilePath));
    var linearApiKey :- Lookup(file, "linear_api_key");
    var notionApiKey :- Lookup(file, "notion_api_key");
    var teamKey :- Lookup(file, "team_key");
    var mode :- ValidateListStr(args.mode);
    var ticket :- ModeFields("TICKET" in mode, file, "ticket_analysis_db_id", "linear_ticket_request_template");
    var bug :- ModeFields("BUG" in mode, file, "bug_analysis_db_id", "linear_bug_request_template");
    var cycle :- ModeFields("CYCLE" in mode, file, "cycle_analysis_db_id", "linear_cycle_request_template");
    var maxNb :- if "TICKET" in mode || "BUG" in mode then
                   var n :- ValidateInt(args.maxNbTicketsToAnalyze); Ok(Some(n))
                 else Ok(None);
    Ok(Config(linearApiKey, notionApiKey, teamKey, mode, ticket.0, ticket.1, bug.0, bug.1, cycle.0, cycle.1, maxNb))
  }

  /** What a mode requires of the file. */
  predicate ModeReady(mode: seq<string>, name: string, file: map<string, string>, dbKey: string, templateKey: string) {
    name in mode ==> Defined(file, dbKey) && Defined(file, templateKey)
  }

  /** The load succeeds exactly when every check it makes passes. */
  lemma LoadOutcome(args: Args, file: map<string, string>)
    ensures Load(args, file).Ok? <==>
      && |args.propertiesFilePath| > 0
      && Defined(file, "linear_api_key") && Defined(file, "notion_api_key") && Defined(file, "team_key")
      && |args.mode| > 0 && AllNonEmpty(args.mode)
      && ModeReady(args.mode, "TICKET", file, "ticket_analysis_db_id", "linear_ticket_request_template")
      && ModeReady(args.mode, "BUG", file, "bug_analysis_db_id", "linear_bug_request_template")
      && ModeReady(args.mode, "CYCLE", file, "cycle_analysis_db_id", "linear_cycle_request_template")
      && ("TICKET" in args.mode || "BUG" in args.mode ==> args.maxNbTicketsToAnalyze > 0)
  {
  }

  /** The loaded configuration: the common properties as the file gives
      them, the modes unchanged, and each mode's fields set from the file
      exactly when that mode is selected. */
  lemma LoadFields(args: Args, file: map<string, string>)
    requires Load(args, file).Ok?
    ensures var c := Load(args, file).value;
      && c.linearApiKey == file["linear_api_key"] && c.notionApiKey == file["notion_api_key"]
      && c.teamKey == file["team_key"]
      && c.mode == args.mode
      && (c.ticketAnalysisDbId.Some? <==> "TICKET" in args.mode)
      && (c.linearTicketRequestTemplate.Some? <==> "TICKET" in args.mode)
      && ("TICKET" in args.mode ==> c.ticketAnalysisDbId == Some(file["ticket_analysis_db_id"]))
      && ("TICKET" in args.mode ==> c.linearTicketRequestTemplate == Some(file["linear_ticket_request_template"]))
      && (c.bugAnalysisDbId.Some? <==> "BUG" in args.mode)
      && (c.linearBugRequestTemplate.Some? <==> "BUG" in args.mode)
      && ("BUG" in args.mode ==> c.bugAnalysisDbId == Some(file["bug_analysis_db_id"]))
      && ("BUG" in args.mode ==> c.linearBugRequestTemplate == Some(file["linear_bug_request_template"]))
      && (c.cycleAnalysisDbId.Some? <==> "CYCLE" in args.mode)
      && (c.linearCycleRequestTemplate.Some? <==> "CYCLE" in args.mode)
      && ("CYCLE" in args.mode ==> c.cycleAnalysisDbId == Some(file["cycle_analysis_db_id"]))
      && ("CYCLE" in args.mode ==> c.linearCycleRequestTemplate == Some(file["linear_cycle_request_template"]))
      && (c.maxNbTicketsToAnalyze.Some? <==> "TICKET" in args.mode || "BUG" in args.mode)
      && (c.maxNbTicketsToAnalyze.Some? ==> c.maxNbTicketsToAnalyze.value == args.maxNbTicketsToAnalyze > 0)
  {
  }

  /** A common property missing from the file fails the load with the
      attribute error of the first one missing, in the order the load reads them. */
  lemma MissingCommonProperty(args: Args, file: map<string, string>)
    requires |args.propertiesFilePath| > 0
    ensures "linear_api_key" !in file ==> Load(args, file) == Err(AttributeError("linear_api_key"))
    ensures Defined(file, "linear_api_key") && "notion_api_key" !in file ==>
      Load(args, file) == Err(AttributeError("notion_api_key"))
    ensures Defined(file, "linear_api_key") && Defined(file, "notion_api_key") && "team_key" !in file ==>
      Load(args, file) == Err(AttributeError("team_key"))
  {
  }

  /** A cycle-only run does not need the ticket limit, whatever its value. */
  lemma CycleOnlyIgnoresLimit(args: Args, file: map<string, string>, n: int)
    requires args.mode == ["CYCLE"]
    ensures Load(args, file) == Load(args.(maxNbTicketsToAnalyze := n), file)
    ensures Load(args, file).Ok? ==> Load(args, file).value.maxNbTicketsToAnalyze.None?
  {
    assert "TICKET" !in args.mode && "BUG" !in args.mode;
  }
}
