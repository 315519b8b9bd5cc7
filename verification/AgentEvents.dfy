/** agent/agent.go, lines 124-230: the events an agent run hands to its host. */
module AgentEvents {
  import opened JsonTree

  datatype HandoffKind = Form | Results | OtherKind(name: string)

  datatype Handoff = Handoff(kind: HandoffKind, heading: string, actionLabel: string)

  datatype Canvas = Canvas(tabId: string, title: string, kind: string, qualifier: string, content: Object,
                           terminalInteractive: bool, handoff: Option<Handoff>)

  datatype Event =
    | Text(text: string)
    | ToolStart(tool: string, callId: string, capability: string)
    | ToolResult(tool: string, result: string)
    | ToolError(tool: string, error: string, capability: string)
    | TextClear
    | CanvasOpen(canvas: Canvas)
    | OpenNav(destination: string)
    | Checkpoint(text: string)
    | Error(message: string)
    | Done
}
