/** The commands that clients replicate through the log (internal/kv/server/cmd.go). */
module Commands {

  datatype CommandKind = CommandInvalid | CommandGet | CommandPut

  datatype Command = Command(
    kind: CommandKind,
    key: string,
    value: string,
    resultValue: string,
    resultFound: bool,
    id: int)

  datatype Option<+T> = None | Some(value: T)
}
