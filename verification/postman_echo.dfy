/**
 * The Postman Echo data-source plugin: how an operation of its bundled OpenAPI document
 * is labelled, the query configuration built from the parsed document, and the
 * configuration a run forwards. Parsing and running OpenAPI operations are done by
 * generic routines that are not part of this model; their inputs and outputs are
 * type parameters here.
 */
module PostmanEcho {
  import opened Wrappers
  import opened JsRuntime

  /** The part of an OpenAPI operation object the label is built from. */
  datatype Operation = Operation(summary: Option<string>, operationId: Option<string>)

  /**
   * `actionLabel`: the summary with its first character upper-cased; without a
   * (non-empty) summary the operation id instead; without either the empty string.
   * The method and the path are not used.
   */
  function ActionLabel(httpMethod: string, path: string, operation: Operation): (text: string)
    ensures operation.summary.Some? && operation.summary.value != [] ==>
      var s := operation.summary.value;
      |text| == |s| && text[0] == UpperAscii(s[0]) && text[1..] == s[1..]
    ensures (operation.summary.None? || operation.summary.value == []) && operation.operationId.Some? ==>
      var id := operation.operationId.value;
      |text| == |id| && (id != [] ==> text[0] == UpperAscii(id[0]) && text[1..] == id[1..])
    ensures (operation.summary.None? || operation.summary.value == []) && operation.operationId.None? ==>
      text == ""
  {
    var summary := if operation.summary.Some? then Str(operation.summary.value) else Undefined;
    UpperFirst(if Truthy(summary) then summary.s else operation.operationId.GetOr(""))
  }

  /** Two routes to the same operation get the same label. */
  lemma ActionLabelIgnoresRoute(method1: string, path1: string, method2: string, path2: string, operation: Operation)
    ensures ActionLabel(method1, path1, operation) == ActionLabel(method2, path2, operation)
  {
  }

  /** A label is already upper-first: labelling its own text gives it back. */
  lemma ActionLabelStable(httpMethod: string, path: string, operation: Operation)
    ensures var text := ActionLabel(httpMethod, path, operation);
      text != [] ==> ActionLabel(httpMethod, path, Operation(Some(text), None)) == text
  {
  }

  /** What the generic OpenAPI parser returns: the actions and their categories. */
  datatype ParsedSpec<Categories, Actions> = ParsedSpec(actions: Actions, categories: Categories)

  /** Records whose `type` and `label` fields are named `kind` and `title` here. */
  datatype CategoriesConfig<Categories> = CategoriesConfig(title: string, items: Categories)

  /** The query configuration the editor shows for this data source. */
  datatype QueryConfig<Categories, Actions> = QueryConfig(
    kind: string,
    title: string,
    categories: CategoriesConfig<Categories>,
    actions: Actions)

  /**
   * `queryConfig`: a query titled "Action" whose categories, titled "Resources", and
   * actions are the parser's, passed through unchanged.
   */
  function BuildQueryConfig<Categories, Actions>(parsed: ParsedSpec<Categories, Actions>)
    : (config: QueryConfig<Categories, Actions>)
    ensures config.kind == "query" && config.title == "Action"
    ensures config.categories.title == "Resources"
    ensures config.categories.items == parsed.categories
    ensures config.actions == parsed.actions
  {
    QueryConfig("query", "Action", CategoriesConfig("Resources", parsed.categories), parsed.actions)
  }

  /** The data-source configuration the generic OpenAPI runner receives. */
  datatype RunApiDsConfig<DataSourceConfig> = RunApiDsConfig(
    url: string,
    serverURL: string,
    dynamicParamsConfig: DataSourceConfig)

  /** The arguments of the generic runner's call (the bundled document is the third). */
  datatype RunCall<ActionData, DataSourceConfig> =
    RunCall(actionData: ActionData, config: RunApiDsConfig<DataSourceConfig>)

  /**
   * `run`: the action is forwarded as it is, with no URL and no server URL of its own,
   * and the data source's configuration as the dynamic parameters.
   */
  function Run<ActionData, DataSourceConfig>(actionData: ActionData, dataSourceConfig: DataSourceConfig)
    : (call: RunCall<ActionData, DataSourceConfig>)
    ensures call.actionData == actionData
    ensures call.config.url == "" && call.config.serverURL == ""
    ensures call.config.dynamicParamsConfig == dataSourceConfig
  {
    RunCall(actionData, RunApiDsConfig("", "", dataSourceConfig))
  }
}
