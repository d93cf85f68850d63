/** The MUI `Chip` colours the list screens pick from to show a status. */
module Chip {
  datatype Color = Success | Warning | Error | Default
}
