/** The pure decisions of terminal spawning and resizing: which program a new
    pseudo-terminal runs, and the window size handed to the resize ioctl. */
module Spawn {
  import opened Instructions

  newtype u16 = x: int | 0 <= x < 0x1_0000

  /** The kernel's window-size record. */
  datatype Winsize = Winsize(wsRow: u16, wsCol: u16, wsXpixel: u16, wsYpixel: u16)

  /** The window size a resize to `columns` by `rows` requests: those dimensions,
      and no pixel size. */
  function ResizeWinsize(columns: u16, rows: u16): (w: Winsize)
    ensures w.wsCol == columns && w.wsRow == rows
    ensures w.wsXpixel == 0 && w.wsYpixel == 0
  {
    Winsize(wsCol := columns, wsRow := rows, wsXpixel := 0, wsYpixel := 0)
  }

  datatype Result<T, E> = Ok(value: T) | Err(error: E)

  /** A program to run and its arguments. */
  datatype Program = Program(command: string, args: seq<string>)

  /** Why the child cannot start: a file was given but neither `EDITOR` nor
      `VISUAL` is set, or no file was given and `SHELL` is not set. */
  datatype SpawnError = EditorNotDefined | ShellNotDefined

  /** Reads an environment variable; `None` when it is not set. */
  function EnvVar(env: map<string, string>, name: string): Option<string>
  {
    if name in env then Some(env[name]) else None
  }

  /** The program the child of a new pseudo-terminal runs. With a file, the editor
      named by `EDITOR`, or by `VISUAL` when `EDITOR` is not set, with the file as
      its only argument, and a failure when neither is set; without a file, the
      shell named by `SHELL`, with no arguments. */
  function SelectProgram(fileToOpen: Option<string>, env: map<string, string>): (r: Result<Program, SpawnError>)
    ensures fileToOpen.Some? ==> (r.Ok? <==> "EDITOR" in env || "VISUAL" in env)
    ensures fileToOpen.Some? && r.Err? ==> r.error == EditorNotDefined
    ensures fileToOpen.Some? && r.Ok? ==> r.value.args == [fileToOpen.value]
    ensures fileToOpen.Some? && "EDITOR" in env ==> r.Ok? && r.value.command == env["EDITOR"]
    ensures fileToOpen.Some? && "EDITOR" !in env && "VISUAL" in env ==> r.Ok? && r.value.command == env["VISUAL"]
    ensures fileToOpen.None? ==> (r.Ok? <==> "SHELL" in env)
    ensures fileToOpen.None? && r.Ok? ==> r.value == Program(env["SHELL"], [])
    ensures fileToOpen.None? && r.Err? ==> r.error == ShellNotDefined
  {
    match fileToOpen
    case Some(file) =>
      if EnvVar(env, "EDITOR").None? && EnvVar(env, "VISUAL").None? then
        Err(EditorNotDefined)
      else
        var editor := match EnvVar(env, "EDITOR")
                      case Some(e) => e
                      case None => EnvVar(env, "VISUAL").value;
        Ok(Program(editor, [file]))
    case None =>
      match EnvVar(env, "SHELL")
      case Some(shell) => Ok(Program(shell, []))
      case None => Err(ShellNotDefined)
  }

  /** Only the variables the chosen branch consults matter: with a file, `SHELL`
      is never read; without one, `EDITOR` and `VISUAL` are never read. */
  lemma SelectProgramReadsOnly(fileToOpen: Option<string>, env: map<string, string>, env': map<string, string>)
    requires fileToOpen.Some? ==>
               (EnvVar(env, "EDITOR") == EnvVar(env', "EDITOR") && EnvVar(env, "VISUAL") == EnvVar(env', "VISUAL"))
    requires fileToOpen.None? ==> EnvVar(env, "SHELL") == EnvVar(env', "SHELL")
    ensures SelectProgram(fileToOpen, env) == SelectProgram(fileToOpen, env')
  {
  }
}
