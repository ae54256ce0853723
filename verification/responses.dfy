/** The uniform envelope every HTTP tool endpoint returns (its timestamp is not modelled). */
module Responses {
  import opened Wrappers

  datatype MCPResponse<D> = MCPResponse(
    success: bool,
    data: Option<D>,
    error: Option<string>,
    tool: Option<string>,
    message: Option<string>)

  function Succeeded<D>(data: D, tool: string, message: Option<string>): MCPResponse<D> {
    MCPResponse(true, Some(data), None, Some(tool), message)
  }

  function Failed<D>(error: string, tool: string): MCPResponse<D> {
    MCPResponse(false, None, Some(error), Some(tool), None)
  }
}
