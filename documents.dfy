/**
  The `documents` commands of `src/commands/documents.js` up to the request
  each one issues: the query of `list`, the body of `send`, and the
  `--file`/`--data` choice of `create` and `update-payments`.
*/
module DocumentCommands {
  import opened Wrappers
  import opened JsStrings
  import opened JsValues
  import opened Http

  const NoDataProvided := "Error: Provide data with --file or --data"

  /** The body carries `option` under `key` exactly when the option is given (truthy). */
  predicate Filtered(members: seq<(string, Json)>, key: string, option: Option<string>) {
    Lookup(members, key) == (if Given(option) then Some(JStr(option.value)) else None)
  }

  /** The query carries `option` under `key` exactly when the option is given (truthy). */
  predicate QueryFiltered(query: map<string, Json>, key: string, option: Option<string>) {
    if Given(option) then key in query && query[key] == JStr(option.value) else key !in query
  }

  /** Every name a `list` query may carry. */
  const ListParamNames: set<string> := {
    "page", "per_page", "block_id", "partner_id", "payment_method", "payment_status",
    "start_date", "end_date", "start_number", "end_number", "start_year", "end_year"}

  /** A filter's contribution to the query: its value under `key` when given, nothing otherwise. */
  function Filter(key: string, option: Option<string>): (m: map<string, Json>)
    ensures QueryFiltered(m, key, option)
    ensures m.Keys <= {key}
  {
    if Given(option) then map[key := JStr(option.value)] else map[]
  }

  /** The optional filters of a command, in the order its `if` statements test them: query name and option. */
  datatype Filters = Done | Then(name: string, option: Option<string>, rest: Filters)

  function Names(fs: Filters): set<string> {
    match fs
    case Done => {}
    case Then(n, _, r) => {n} + Names(r)
  }

  /** The query carries every filter of `fs` exactly when its option is given. */
  predicate AllFiltered(query: map<string, Json>, fs: Filters) {
    match fs
    case Done => true
    case Then(n, o, r) => QueryFiltered(query, n, o) && AllFiltered(query, r)
  }

  /** The filters' `if (options.x) params.x_name = options.x` statements run in order on `query`. */
  function Apply(query: map<string, Json>, fs: Filters): map<string, Json>
    decreases fs
  {
    match fs
    case Done => query
    case Then(n, o, r) => Apply(query + Filter(n, o), r)
  }

  /** The position of a filter of `documents list` among the ten; 10 for any other name. */
  function Rank(name: string): (r: nat)
    ensures r < 10 ==> name in ListParamNames && name != "page" && name != "per_page"
  {
    if name == "block_id" then 0
    else if name == "partner_id" then 1
    else if name == "payment_method" then 2
    else if name == "payment_status" then 3
    else if name == "start_date" then 4
    else if name == "end_date" then 5
    else if name == "start_number" then 6
    else if name == "end_number" then 7
    else if name == "start_year" then 8
    else if name == "end_year" then 9
    else 10
  }

  function FirstRank(fs: Filters): nat {
    if fs.Then? then Rank(fs.name) else 10
  }

  /** Filters of `documents list`, each name ranked strictly below the next: no name occurs twice. */
  predicate Ascending(fs: Filters) {
    match fs
    case Done => true
    case Then(n, _, r) => Rank(n) < FirstRank(r) && Ascending(r)
  }

  lemma {:induction false} AscendingNames(fs: Filters)
    requires Ascending(fs)
    ensures forall k :: k in Names(fs) ==> FirstRank(fs) <= Rank(k) < 10
  {
    if fs.Then? {
      AscendingNames(fs.rest);
    }
  }

  /** A later filter with another name neither adds nor removes `key`. */
  lemma {:induction false} Keeps(query: map<string, Json>, key: string, option: Option<string>, fs: Filters)
    requires QueryFiltered(query, key, option) && key !in Names(fs)
    ensures QueryFiltered(Apply(query, fs), key, option)
    decreases fs
  {
    match fs
    case Done =>
    case Then(n, o, r) => Keeps(query + Filter(n, o), key, option, r);
  }

  /**
    Running any of the ten filters of `documents list`, in the order the
    command applies them, on a query that has none of them: each is present
    exactly when given, what the query had stays, and nothing else is added.
  */
  lemma {:induction false} Applies(query: map<string, Json>, fs: Filters)
    requires Ascending(fs)
    requires forall k :: k in Names(fs) ==> k !in query
    ensures AllFiltered(Apply(query, fs), fs)
    ensures Apply(query, fs).Keys <= query.Keys + Names(fs)
    ensures forall k :: k in query ==> k in Apply(query, fs) && Apply(query, fs)[k] == query[k]
    decreases fs
  {
    match fs
    case Done =>
    case Then(n, o, r) =>
      AscendingNames(r);
      Applies(query + Filter(n, o), r);
      Keeps(query + Filter(n, o), n, o, r);
  }

  /** The ten filters of `documents list` with their query names. */
  function ListFilters(blockId: Option<string>, partnerId: Option<string>,
                       paymentMethod: Option<string>, paymentStatus: Option<string>,
                       startDate: Option<string>, endDate: Option<string>,
                       startNumber: Option<string>, endNumber: Option<string>,
                       startYear: Option<string>, endYear: Option<string>): Filters
  {
    Then("block_id", blockId, Then("partner_id", partnerId, Then("payment_method", paymentMethod,
    Then("payment_status", paymentStatus, Then("start_date", startDate, Then("end_date", endDate,
    Then("start_number", startNumber, Then("end_number", endNumber, Then("start_year", startYear,
    Then("end_year", endYear, Done))))))))))
  }

  lemma {:induction false} ListFiltersAscending(blockId: Option<string>, partnerId: Option<string>,
                             paymentMethod: Option<string>, paymentStatus: Option<string>,
                             startDate: Option<string>, endDate: Option<string>,
                             startNumber: Option<string>, endNumber: Option<string>,
                             startYear: Option<string>, endYear: Option<string>)
    ensures Ascending(ListFilters(blockId, partnerId, paymentMethod, paymentStatus,
                                  startDate, endDate, startNumber, endNumber, startYear, endYear))
  {
    var f10 := Then("end_year", endYear, Done);
    var f9 := Then("start_year", startYear, f10);
    var f8 := Then("end_number", endNumber, f9);
    var f7 := Then("start_number", startNumber, f8);
    var f6 := Then("end_date", endDate, f7);
    var f5 := Then("start_date", startDate, f6);
    var f4 := Then("payment_status", paymentStatus, f5);
    var f3 := Then("payment_method", paymentMethod, f4);
    var f2 := Then("partner_id", partnerId, f3);
    var f1 := Then("block_id", blockId, f2);
    assert Ascending(f10) && Ascending(f9) && Ascending(f8) && Ascending(f7) && Ascending(f6);
    assert Ascending(f5) && Ascending(f4) && Ascending(f3) && Ascending(f2) && Ascending(f1);
  }

  /**
    The query of `documents list`: `page` and `per_page` as given, then each
    of the ten filters under its snake_case name when it is given. The
    parameters are the command's options as the option parser delivers them:
    `page` and `perPage` always hold text (their defaults are "1" and "25"),
    every filter is None unless given.
  */
  function ListQuery(page: string, perPage: string,
                     blockId: Option<string>, partnerId: Option<string>,
                     paymentMethod: Option<string>, paymentStatus: Option<string>,
                     startDate: Option<string>, endDate: Option<string>,
                     startNumber: Option<string>, endNumber: Option<string>,
                     startYear: Option<string>, endYear: Option<string>): (query: map<string, Json>)
    ensures "page" in query && query["page"] == JStr(page)
    ensures "per_page" in query && query["per_page"] == JStr(perPage)
    ensures query.Keys <= ListParamNames
  {
    var fs := ListFilters(blockId, partnerId, paymentMethod, paymentStatus, startDate, endDate,
                          startNumber, endNumber, startYear, endYear);
    ListFiltersAscending(blockId, partnerId, paymentMethod, paymentStatus, startDate, endDate,
                         startNumber, endNumber, startYear, endYear);
    PagedQuery(page, perPage, fs);
    Apply(map["page" := JStr(page), "per_page" := JStr(perPage)], fs)
  }

  /** Each of the ten filters is in the query exactly when given. */
  lemma {:induction false} ListQueryParams(page: string, perPage: string,
                        blockId: Option<string>, partnerId: Option<string>,
                        paymentMethod: Option<string>, paymentStatus: Option<string>,
                        startDate: Option<string>, endDate: Option<string>,
                        startNumber: Option<string>, endNumber: Option<string>,
                        startYear: Option<string>, endYear: Option<string>)
    ensures var query := ListQuery(page, perPage, blockId, partnerId, paymentMethod, paymentStatus,
                                   startDate, endDate, startNumber, endNumber, startYear, endYear);
      && QueryFiltered(query, "block_id", blockId)
      && QueryFiltered(query, "partner_id", partnerId)
      && QueryFiltered(query, "payment_method", paymentMethod)
      && QueryFiltered(query, "payment_status", paymentStatus)
      && QueryFiltered(query, "start_date", startDate)
      && QueryFiltered(query, "end_date", endDate)
      && QueryFiltered(query, "start_number", startNumber)
      && QueryFiltered(query, "end_number", endNumber)
      && QueryFiltered(query, "start_year", startYear)
      && QueryFiltered(query, "end_year", endYear)
  {
    var fs := ListFilters(blockId, partnerId, paymentMethod, paymentStatus, startDate, endDate,
                          startNumber, endNumber, startYear, endYear);
    ListFiltersAscending(blockId, partnerId, paymentMethod, paymentStatus, startDate, endDate,
                         startNumber, endNumber, startYear, endYear);
    PagedQuery(page, perPage, fs);
    var query := ListQuery(page, perPage, blockId, partnerId, paymentMethod, paymentStatus,
                           startDate, endDate, startNumber, endNumber, startYear, endYear);
    ListFiltersHold(query, blockId, partnerId, paymentMethod, paymentStatus, startDate, endDate,
                    startNumber, endNumber, startYear, endYear);
  }

  /** Filters of `documents list` run after `page` and `per_page`: both stay, and only list parameters appear. */
  lemma {:induction false} PagedQuery(page: string, perPage: string, fs: Filters)
    requires Ascending(fs)
    ensures var query := Apply(map["page" := JStr(page), "per_page" := JStr(perPage)], fs);
      && "page" in query && query["page"] == JStr(page)
      && "per_page" in query && query["per_page"] == JStr(perPage)
      && AllFiltered(query, fs)
      && query.Keys <= ListParamNames
  {
    var base := map["page" := JStr(page), "per_page" := JStr(perPage)];
    AscendingNames(fs);
    Applies(base, fs);
  }

  /** What holding for each of the ten filters of `documents list` means, filter by filter. */
  lemma {:induction false} ListFiltersHold(query: map<string, Json>,
                        blockId: Option<string>, partnerId: Option<string>,
                        paymentMethod: Option<string>, paymentStatus: Option<string>,
                        startDate: Option<string>, endDate: Option<string>,
                        startNumber: Option<string>, endNumber: Option<string>,
                        startYear: Option<string>, endYear: Option<string>)
    requires AllFiltered(query, ListFilters(blockId, partnerId, paymentMethod, paymentStatus,
                                            startDate, endDate, startNumber, endNumber, startYear, endYear))
    ensures QueryFiltered(query, "block_id", blockId)
    ensures QueryFiltered(query, "partner_id", partnerId)
    ensures QueryFiltered(query, "payment_method", paymentMethod)
    ensures QueryFiltered(query, "payment_status", paymentStatus)
    ensures QueryFiltered(query, "start_date", startDate)
    ensures QueryFiltered(query, "end_date", endDate)
    ensures QueryFiltered(query, "start_number", startNumber)
    ensures QueryFiltered(query, "end_number", endNumber)
    ensures QueryFiltered(query, "start_year", startYear)
    ensures QueryFiltered(query, "end_year", endYear)
  {
    var f10 := Then("end_year", endYear, Done);
    var f9 := Then("start_year", startYear, f10);
    var f8 := Then("end_number", endNumber, f9);
    var f7 := Then("start_number", startNumber, f8);
    var f6 := Then("end_date", endDate, f7);
    var f5 := Then("start_date", startDate, f6);
    var f4 := Then("payment_status", paymentStatus, f5);
    var f3 := Then("payment_method", paymentMethod, f4);
    var f2 := Then("partner_id", partnerId, f3);
    var f1 := Then("block_id", blockId, f2);
    assert AllFiltered(query, f1) && AllFiltered(query, f2) && AllFiltered(query, f3) && AllFiltered(query, f4);
    assert AllFiltered(query, f5) && AllFiltered(query, f6) && AllFiltered(query, f7) && AllFiltered(query, f8);
    assert AllFiltered(query, f9) && AllFiltered(query, f10);
  }

  /** The object literal followed by the ten `if (options.x) params.x_name = options.x` statements. */
  method ListParams(page: string, perPage: string,
                    blockId: Option<string>, partnerId: Option<string>,
                    paymentMethod: Option<string>, paymentStatus: Option<string>,
                    startDate: Option<string>, endDate: Option<string>,
                    startNumber: Option<string>, endNumber: Option<string>,
                    startYear: Option<string>, endYear: Option<string>)
    returns (query: map<string, Json>)
    ensures query == ListQuery(page, perPage, blockId, partnerId, paymentMethod, paymentStatus,
                               startDate, endDate, startNumber, endNumber, startYear, endYear)
  {
    ghost var target := ListQuery(page, perPage, blockId, partnerId, paymentMethod, paymentStatus,
                                  startDate, endDate, startNumber, endNumber, startYear, endYear);
    ghost var rest := ListFilters(blockId, partnerId, paymentMethod, paymentStatus, startDate, endDate,
                                  startNumber, endNumber, startYear, endYear);
    query := map["page" := JStr(page), "per_page" := JStr(perPage)];
    assert Apply(query, rest) == target;
    query := AddFilter(query, "block_id", blockId);
    rest := rest.rest;
    assert Apply(query, rest) == target;
    query := AddFilter(query, "partner_id", partnerId);
    rest := rest.rest;
    assert Apply(query, rest) == target;
    query := AddFilter(query, "payment_method", paymentMethod);
    rest := rest.rest;
    assert Apply(query, rest) == target;
    query := AddFilter(query, "payment_status", paymentStatus);
    rest := rest.rest;
    assert Apply(query, rest) == target;
    query := AddFilter(query, "start_date", startDate);
    rest := rest.rest;
    assert Apply(query, rest) == target;
    query := AddFilter(query, "end_date", endDate);
    rest := rest.rest;
    assert Apply(query, rest) == target;
    query := AddFilter(query, "start_number", startNumber);
    rest := rest.rest;
    assert Apply(query, rest) == target;
    query := AddFilter(query, "end_number", endNumber);
    rest := rest.rest;
    assert Apply(query, rest) == target;
    query := AddFilter(query, "start_year", startYear);
    rest := rest.rest;
    assert Apply(query, rest) == target;
    query := AddFilter(query, "end_year", endYear);
    rest := rest.rest;
    assert Apply(query, rest) == target;
  }

  /** One `if (options.x) params.x_name = options.x`. */
  method AddFilter(query: map<string, Json>, key: string, option: Option<string>) returns (r: map<string, Json>)
    ensures r == query + Filter(key, option)
  {
    r := query;
    if Given(option) {
      r := query[key := JStr(option.value)];
    }
  }

  /** Text items as a JSON array of strings. */
  function Strings(items: seq<string>): (arr: Json)
    ensures arr.JArr? && |arr.items| == |items|
    ensures forall i :: 0 <= i < |items| ==> arr.items[i] == JStr(items[i])
  {
    JArr(seq(|items|, i requires 0 <= i < |items| => JStr(items[i])))
  }

  /**
    The body of `documents send`: `emails` split at each comma with nothing
    trimmed, `subject` and `message` as given; each only when its option is.
  */
  method SendBody(emails: Option<string>, subject: Option<string>, message: Option<string>)
    returns (data: seq<(string, Json)>)
    ensures Lookup(data, "emails") == (if Given(emails) then Some(Strings(Split(emails.value, ','))) else None)
    ensures Filtered(data, "subject", subject)
    ensures Filtered(data, "message", message)
    ensures forall name :: name !in {"emails", "subject", "message"} ==> Lookup(data, name) == None
  {
    data := [];
    if Given(emails) {
      data := SetMember(data, "emails", Strings(Split(emails.value, ',')));
    }
    if Given(subject) {
      data := SetMember(data, "subject", JStr(subject.value));
    }
    if Given(message) {
      data := SetMember(data, "message", JStr(message.value));
    }
  }

  /** The addresses `send` transmits are the option's text cut at the commas: joined again, they give it back. */
  lemma {:induction false} SentAddressesRejoin(emails: string)
    ensures |Strings(Split(emails, ',')).items| == Count(emails, ',') + 1
    ensures JoinWith(Split(emails, ','), ",") == emails
  {
    JoinSplit(emails, ',');
  }

  /**
    The document data `create` and `update-payments` send, or the message
    they print before exiting: `--file` is read and parsed in preference to
    `--data`, which is parsed; with neither, the command stops. A read or
    parse failure is caught and printed after `Error:`. `readFile` and
    `parse` stand for `readFileSync` and `JSON.parse`.
  */
  function Payload(file: Option<string>, data: Option<string>,
                   readFile: string -> Result<string, string>, parse: string -> Result<Json, string>): (r: Result<Json, string>)
    ensures Given(file) && readFile(file.value).Failure? ==> r == Failure("Error: " + readFile(file.value).error)
    ensures Given(file) && readFile(file.value).Success? ==> (r.Success? <==> parse(readFile(file.value).value).Success?)
    ensures !Given(file) && Given(data) ==> (r.Success? <==> parse(data.value).Success?)
    ensures !Given(file) && !Given(data) ==> r == Failure(NoDataProvided)
    ensures r.Success? ==>
      (Given(file) && parse(readFile(file.value).value) == Success(r.value))
      || (!Given(file) && Given(data) && parse(data.value) == Success(r.value))
  {
    if Given(file) then
      match readFile(file.value)
      case Failure(e) => Failure("Error: " + e)
      case Success(text) => Parsed(parse(text))
    else if Given(data) then
      Parsed(parse(data.value))
    else
      Failure(NoDataProvided)
  }

  function Parsed(r: Result<Json, string>): (p: Result<Json, string>)
    ensures r.Success? ==> p == r
    ensures r.Failure? ==> p == Failure("Error: " + r.error)
  {
    match r
    case Success(v) => Success(v)
    case Failure(e) => Failure("Error: " + e)
  }

  /** Once `--file` is given, `--data` makes no difference. */
  lemma {:induction false} FileTakesPrecedence(file: string, d1: Option<string>, d2: Option<string>,
                            readFile: string -> Result<string, string>, parse: string -> Result<Json, string>)
    requires file != ""
    ensures Payload(Some(file), d1, readFile, parse) == Payload(Some(file), d2, readFile, parse)
  {
  }

  /**
    The `let data` branch of `create` and `update-payments`: assigned from
    the file, else from `--data`, else the command stops.
  */
  method SelectPayload(file: Option<string>, data: Option<string>,
                       readFile: string -> Result<string, string>, parse: string -> Result<Json, string>)
    returns (r: Result<Json, string>)
    ensures r == Payload(file, data, readFile, parse)
  {
    var text: string;
    if Given(file) {
      var read := readFile(file.value);
      if read.Failure? {
        return Failure("Error: " + read.error);
      }
      text := read.value;
    } else if Given(data) {
      text := data.value;
    } else {
      return Failure(NoDataProvided);
    }
    var parsed := parse(text);
    if parsed.Failure? {
      return Failure("Error: " + parsed.error);
    }
    r := Success(parsed.value);
  }

  /** `documents create`: POST the selected document data to `/documents`, or stop before any request. */
  method Create(file: Option<string>, data: Option<string>,
                readFile: string -> Result<string, string>, parse: string -> Result<Json, string>)
    returns (step: Step)
    ensures step.Issue? <==> Payload(file, data, readFile, parse).Success?
    ensures step.Issue? ==> step == Issue("POST", "/documents", Payload(file, data, readFile, parse).value)
    ensures step.Abort? ==> step.message == Payload(file, data, readFile, parse).error
  {
    var payload := SelectPayload(file, data, readFile, parse);
    match payload
    case Failure(message) => step := Abort(message);
    case Success(document) => step := Issue("POST", "/documents", document);
  }

  /** `documents update-payments <id>`: PUT the selected payment data to the document's payments, or stop. */
  method UpdatePayments(id: string, file: Option<string>, data: Option<string>,
                        readFile: string -> Result<string, string>, parse: string -> Result<Json, string>)
    returns (step: Step)
    ensures step.Issue? <==> Payload(file, data, readFile, parse).Success?
    ensures step.Issue? ==> step == Issue("PUT", "/documents/" + id + "/payments", Payload(file, data, readFile, parse).value)
    ensures step.Abort? ==> step.message == Payload(file, data, readFile, parse).error
  {
    var payload := SelectPayload(file, data, readFile, parse);
    match payload
    case Failure(message) => step := Abort(message);
    case Success(payments) => step := Issue("PUT", "/documents/" + id + "/payments", payments);
  }
}
