/** The status line the chat shows for one tool invocation (`ToolStatus`):
    a per-tool configuration looked up by name with a default, and a running
    or completed rendering chosen from the invocation state.
 */
module ToolStatus {

  datatype ToolState = Pending | Running | Completed

  datatype Icon = Sparkles | Search | Loader | CheckCircle

  datatype ToolConfig = ToolConfig(
    heading: string,
    icon: Icon,
    runningText: string,
    completedText: string)

  const ExtractQueryConfig := ToolConfig(
    "Extracting Query", Sparkles, "Analyzing requirements...", "Requirements extracted")

  const FindCandidatesConfig := ToolConfig(
    "Searching Candidates", Search, "Searching for matching candidates...", "Search complete")

  const DefaultConfig := ToolConfig("Processing", Loader, "Working...", "Done")

  /** The configuration table: only the query-extraction and candidate-search
      tools have entries of their own; every other name, such as the
      reasoning tool that the system prompt mentions, gets the default. */
  function ConfigFor(toolName: string): (c: ToolConfig)
    ensures toolName == "extractQueryTool" ==> c == ExtractQueryConfig
    ensures toolName == "findCandidatesTool" ==> c == FindCandidatesConfig
    ensures c != DefaultConfig <==> toolName in {"extractQueryTool", "findCandidatesTool"}
  {
    if toolName == "extractQueryTool" then ExtractQueryConfig
    else if toolName == "findCandidatesTool" then FindCandidatesConfig
    else DefaultConfig
  }

  /** A tool is shown as running while it is pending or running. */
  predicate IsRunning(state: ToolState) {
    state == Pending || state == Running
  }

  /** What the status line renders: the tool's icon (pulsing) and running
      text while running, otherwise a check mark and the completed text. */
  datatype StatusView = StatusView(icon: Icon, pulsing: bool, text: string)

  function View(toolName: string, state: ToolState): (v: StatusView)
    ensures v.pulsing <==> state != Completed
    ensures state != Completed ==>
      v.icon == ConfigFor(toolName).icon && v.text == ConfigFor(toolName).runningText
    ensures state == Completed ==>
      v.icon == CheckCircle && v.text == ConfigFor(toolName).completedText
  {
    var config := ConfigFor(toolName);
    if IsRunning(state) then StatusView(config.icon, true, config.runningText)
    else StatusView(CheckCircle, false, config.completedText)
  }
}
