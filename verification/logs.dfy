/** Lines handed to the logger.  Only the level and the formatted text are kept;
the colour codes the logger adds around them are presentation.
 */
module Logs {

  datatype LogLine =
    | LogInfo(text: string)
    | LogWarning(text: string)
    | LogError(text: string)
    | LogSuccess(text: string)
}
