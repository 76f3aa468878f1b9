/**
 * The records the terminal exchanges: transcript lines, command
 * registrations and the portfolio content the handlers format.
 */
module TerminalTypes {
  import opened TextUtil

  /** The tag set of a transcript line. */
  datatype LineType = Command | Output | Error | Success | Info | Warning | System

  /** One line of the transcript: its tag and its display text. */
  datatype TerminalLine = TerminalLine(kind: LineType, content: string)

  /** What a command handler resolves to: a tagged line or a plain string. */
  datatype Response = Line(line: TerminalLine) | Text(text: string)

  /** How a handler's promise settles: resolved with a response, or rejected
      with an error whose string form is `error`. */
  datatype Outcome = Returned(response: Response) | Threw(error: string)

  /** A registered command. A registration without aliases has `aliases == []`. */
  datatype Command = Registration(
    name: string,
    description: string,
    aliases: seq<string>,
    execute: seq<string> -> Outcome)

  datatype Project = Project(
    id: string,
    name: string,
    description: string,
    technologies: seq<string>,
    url: Option<string>,
    github: Option<string>,
    image: Option<string>,
    featured: bool)

  datatype Skill = Skill(category: string, items: seq<string>)

  datatype PersonalInfo = PersonalInfo(
    name: string,
    title: string,
    email: string,
    location: string,
    bio: string,
    education: seq<string>,
    experience: seq<string>)

  function ErrorLine(message: string): Response {
    Line(TerminalLine(Error, message))
  }
}
