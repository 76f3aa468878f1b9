/**
 * The command table of the portfolio terminal and the dispatcher that
 * resolves a typed line against it (`commandHandler`).
 *
 * The table's texts are spelled exactly as the source file holds them,
 * including its double-encoded bullets and arrows (the bytes of "•"
 * read back as the three characters U+00E2 U+20AC U+00A2).
 */
module Commands {
  import opened TextUtil
  import opened TerminalTypes

  // ---------------------------------------------------------------------
  // Portfolio content
  // ---------------------------------------------------------------------

  const PersonalInfoData: PersonalInfo := PersonalInfo(
    "Alex Developer",
    "Full Stack Developer & AI Enthusiast",
    "alex@example.com",
    "San Francisco, CA",
    "Passionate developer with 5+ years of experience building scalable web applications and AI-powered solutions. Love creating immersive user experiences and solving complex problems.",
    ["B.S. Computer Science - Stanford University (2019)",
     "Machine Learning Certification - Coursera (2021)"],
    ["Senior Developer at TechCorp (2021-Present)",
     "Full Stack Developer at StartupXYZ (2019-2021)",
     "Software Engineering Intern at BigTech (2018)"])

  const SkillsData: seq<Skill> := [
    Skill("Frontend", ["React", "TypeScript", "Next.js", "Tailwind CSS", "Three.js", "Vue.js"]),
    Skill("Backend", ["Node.js", "Python", "PostgreSQL", "MongoDB", "Redis", "GraphQL"]),
    Skill("AI/ML", ["OpenAI API", "TensorFlow", "PyTorch", "LangChain", "Computer Vision"]),
    Skill("DevOps", ["Docker", "AWS", "Vercel", "GitHub Actions", "Kubernetes"]),
    Skill("Tools", ["Git", "VS Code", "Figma", "Postman", "Linear", "Notion"])
  ]

  const ProjectsData: seq<Project> := [
    Project("1", "AI Code Assistant",
      "Built an intelligent code completion tool using OpenAI's GPT-4. Features include real-time code suggestions, bug detection, and documentation generation.",
      ["React", "Node.js", "OpenAI API", "TypeScript"],
      Some("https://ai-assistant.demo.com"), Some("https://github.com/alex/ai-assistant"), None, true),
    Project("2", "3D Portfolio Website",
      "Interactive terminal-style portfolio with Three.js animations and AI-powered chat functionality.",
      ["React", "Three.js", "Framer Motion", "Tailwind CSS"],
      Some("https://portfolio.demo.com"), Some("https://github.com/alex/portfolio"), None, true),
    Project("3", "E-commerce Platform",
      "Full-stack e-commerce solution with real-time inventory, payment processing, and admin dashboard.",
      ["Next.js", "PostgreSQL", "Stripe", "Prisma"],
      Some("https://shop.demo.com"), Some("https://github.com/alex/ecommerce"), None, false)
  ]

  // ---------------------------------------------------------------------
  // Formatting helpers shared by the handlers
  // ---------------------------------------------------------------------

  /** The bullet as the source file spells it. */
  const Bullet: string := "\U{00E2}\U{20AC}\U{00A2}"

  /** `items.map(item => "  • " + item)`. */
  function BulletItems(items: seq<string>): (r: seq<string>)
    ensures |r| == |items|
    ensures forall i :: 0 <= i < |items| ==> r[i] == "  " + Bullet + " " + items[i]
  {
    if items == [] then [] else ["  " + Bullet + " " + items[0]] + BulletItems(items[1..])
  }

  /** `items.map(item => "  • " + item).join('\n')`. */
  function Bulleted(items: seq<string>): string {
    Join(BulletItems(items), "\n")
  }

  /** A JavaScript truthiness test on an optional string field. */
  predicate Present(field: Option<string>) {
    field.Some? && field.value != ""
  }

  /** The text a template literal of the table holds: a newline, the body,
      a newline and the six spaces that indent the closing backtick. */
  function Template(body: string): string {
    "\n" + body + "\n      "
  }

  // ---------------------------------------------------------------------
  // help, about, contact, chat, whoami, theme, ls
  // ---------------------------------------------------------------------

  const HelpBody: string :=
    "Available commands:\n"
    + "\n"
    + "  about     - Show personal information and bio\n"
    + "  skills    - Display technical skills and expertise  \n"
    + "  projects  - List portfolio projects\n"
    + "  resume    - View resume and download link\n"
    + "  contact   - Get contact information\n"
    + "  clear     - Clear the terminal screen\n"
    + "  theme     - Toggle light/dark theme\n"
    + "  chat      - Start AI-powered conversation\n"
    + "  ascii     - Display ASCII art\n"
    + "  whoami    - Show current user info\n"
    + "  date      - Show current date and time\n"
    + "  help      - Show this help message\n"
    + "\n"
    + "Navigation:\n"
    + "  \U{00E2}\U{2020}\U{2018}/\U{00E2}\U{2020}\U{201C} arrows - Navigate command history\n"
    + "  Tab        - Auto-complete commands (coming soon)\n"
    + "\n"
    + "Type any command to get started!"

  function AboutBody(info: PersonalInfo): string {
    "Name: " + info.name + "\n"
    + "Title: " + info.title + "\n"
    + "Location: " + info.location + "\n"
    + "\n"
    + "Bio:\n"
    + info.bio + "\n"
    + "\n"
    + "Education:\n"
    + Bulleted(info.education) + "\n"
    + "\n"
    + "Experience:\n"
    + Bulleted(info.experience)
  }

  function ContactBody(info: PersonalInfo): string {
    "Let's Connect!\n"
    + "\n"
    + "Email: " + info.email + "\n"
    + "Location: " + info.location + "\n"
    + "\n"
    + "I'm always open to discussing:\n"
    + "  " + Bullet + " New opportunities\n"
    + "  " + Bullet + " Exciting projects  \n"
    + "  " + Bullet + " Tech collaborations\n"
    + "  " + Bullet + " AI/ML innovations\n"
    + "\n"
    + "Find me online:\n"
    + "  " + Bullet + " LinkedIn: linkedin.com/in/alexdev\n"
    + "  " + Bullet + " GitHub: github.com/alexdev\n"
    + "  " + Bullet + " Twitter: @alexdev\n"
    + "  " + Bullet + " Portfolio: alexdev.com\n"
    + "\n"
    + "Feel free to reach out anytime!"
  }

  const ChatBody: string :=
    "\U{00F0}\U{0178}\U{00A4}\U{2013} AI Chat Mode\n"
    + "\n"
    + "I'd love to integrate OpenAI here! To add AI-powered chat:\n"
    + "\n"
    + "1. Connect this project to Supabase (click the green button \U{00E2}\U{2020}\U{2014}\U{00EF}\U{00B8})\n"
    + "2. Add your OpenAI API key to Supabase secrets\n"
    + "3. I'll create an edge function for secure AI interactions\n"
    + "\n"
    + "For now, you can explore other commands like:\n"
    + "  " + Bullet + " about - Learn about me\n"
    + "  " + Bullet + " projects - See my work  \n"
    + "  " + Bullet + " skills - View my expertise\n"
    + "\n"
    + "Type 'help' for all available commands!"

  const LsBody: string :=
    "drwxr-xr-x  portfolio/\n"
    + "drwxr-xr-x  projects/\n"
    + "drwxr-xr-x  skills/\n"
    + "-rw-r--r--  resume.pdf\n"
    + "-rw-r--r--  contact.txt\n"
    + "-rw-r--r--  about.md"

  const ThemeText: string := "Theme switching coming soon! Currently using terminal dark theme."

  const WhoamiText: string := "portfolio-visitor@alexdev-terminal:~$"

  // ---------------------------------------------------------------------
  // skills: a header, then one block per category, appended in a loop
  // ---------------------------------------------------------------------

  const SkillsHeader: string := "\n" + "Technical Skills & Expertise" + "\n\n"

  function SkillBlock(skill: Skill): string {
    skill.category + ":\n" + Bulleted(skill.items) + "\n\n"
  }

  /** The blocks of the first `|skills|` categories, in order. */
  function SkillBlocks(skills: seq<Skill>): string {
    if skills == [] then "" else SkillBlocks(skills[..|skills| - 1]) + SkillBlock(skills[|skills| - 1])
  }

  /** The content of the `skills` reply. */
  function SkillsText(skills: seq<Skill>): string {
    Trim(SkillsHeader + SkillBlocks(skills))
  }

  /** The `skills` handler's `forEach` loop. */
  method SkillsListing(skills: seq<Skill>) returns (text: string)
    ensures text == SkillsText(skills)
  {
    text := SkillsHeader;
    ghost var blocks := "";
    assert text == SkillsHeader + blocks;
    var i := 0;
    while i < |skills|
      invariant 0 <= i <= |skills|
      invariant blocks == SkillBlocks(skills[..i])
      invariant text == SkillsHeader + blocks
    {
      var skill := skills[i];
      ghost var before := text;
      text := text + skill.category + ":\n";
      text := text + Bulleted(skill.items);
      text := text + "\n\n";
      assert text == before + SkillBlock(skill);
      AppendAssociates(SkillsHeader, blocks, SkillBlock(skill));
      assert skills[..i + 1][..i] == skills[..i];
      blocks := blocks + SkillBlock(skill);
      i := i + 1;
    }
    assert skills[..i] == skills;
    text := Trim(text);
  }

  // ---------------------------------------------------------------------
  // projects: a header, then one numbered entry per project
  // ---------------------------------------------------------------------

  const ProjectsHeader: string := "\n" + "Portfolio Projects" + "\n\n"

  /** The first line of the entry at zero-based position `index`. */
  function ProjectTitle(index: nat, project: Project): string {
    NatToString(index + 1) + ". " + project.name
    + (if project.featured then " (Featured)" else "") + "\n"
  }

  function DescriptionLine(project: Project): string {
    "   " + project.description + "\n"
  }

  function TechLine(project: Project): string {
    "   Tech: " + Join(project.technologies, ", ") + "\n"
  }

  function LiveLine(project: Project): string
    requires project.url.Some?
  {
    "   Live: " + project.url.value + "\n"
  }

  function CodeLine(project: Project): string
    requires project.github.Some?
  {
    "   Code: " + project.github.value + "\n"
  }

  /** The lines of one project: the Live and Code lines only for a present
      `url` and `github`, then a blank line. */
  function ProjectEntry(index: nat, project: Project): string {
    ProjectTitle(index, project)
    + DescriptionLine(project)
    + TechLine(project)
    + (if Present(project.url) then LiveLine(project) else "")
    + (if Present(project.github) then CodeLine(project) else "")
    + "\n"
  }

  /** The entries of the projects, numbered by their position. */
  function ProjectEntries(projects: seq<Project>): string {
    if projects == [] then ""
    else ProjectEntries(projects[..|projects| - 1])
         + ProjectEntry(|projects| - 1, projects[|projects| - 1])
  }

  /** The content of the `projects` reply. */
  function ProjectsText(projects: seq<Project>): string {
    Trim(ProjectsHeader + ProjectEntries(projects))
  }

  /** The `forEach` callback of the `projects` handler: appends the entry
      of `project`, at position `index`, to `text`. */
  method AppendProjectEntry(text: string, index: nat, project: Project) returns (result: string)
    ensures result == text + ProjectEntry(index, project)
  {
    result := text + ProjectTitle(index, project);
    ghost var entry := ProjectTitle(index, project);
    result, entry := result + DescriptionLine(project), entry + DescriptionLine(project);
    assert result == text + entry;
    result, entry := result + TechLine(project), entry + TechLine(project);
    assert result == text + entry;
    if Present(project.url) {
      result, entry := result + LiveLine(project), entry + LiveLine(project);
    } else {
      entry := entry + "";
    }
    assert result == text + entry;
    if Present(project.github) {
      result, entry := result + CodeLine(project), entry + CodeLine(project);
    } else {
      entry := entry + "";
    }
    assert result == text + entry;
    result, entry := result + "\n", entry + "\n";
    assert result == text + entry;
  }

  /** One more project adds its own entry after the others. */
  lemma ProjectEntriesStep(projects: seq<Project>, index: nat)
    requires index < |projects|
    ensures ProjectEntries(projects[..index + 1])
            == ProjectEntries(projects[..index]) + ProjectEntry(index, projects[index])
  {
    var p := projects[..index + 1];
    assert p[..|p| - 1] == projects[..index];
    assert p[|p| - 1] == projects[index];
  }

  /** The `projects` handler's `forEach` loop. */
  method ProjectsListing(projects: seq<Project>) returns (text: string)
    ensures text == ProjectsText(projects)
  {
    text := ProjectsHeader;
    ghost var entries := "";
    assert text == ProjectsHeader + entries;
    var index := 0;
    while index < |projects|
      invariant 0 <= index <= |projects|
      invariant entries == ProjectEntries(projects[..index])
      invariant text == ProjectsHeader + entries
    {
      ghost var entry := ProjectEntry(index, projects[index]);
      text := AppendProjectEntry(text, index, projects[index]);
      AppendAssociates(ProjectsHeader, entries, entry);
      ProjectEntriesStep(projects, index);
      entries := entries + entry;
      index := index + 1;
    }
    assert projects[..index] == projects;
    text := Trim(text);
  }

  // ---------------------------------------------------------------------
  // resume
  // ---------------------------------------------------------------------

  /** `skills.flatMap(s => s.items)`. */
  function FlatItems(skills: seq<Skill>): seq<string> {
    if skills == [] then [] else skills[0].items + FlatItems(skills[1..])
  }

  /** `.slice(0, 8)` of the flattened items. */
  function KeySkillsList(skills: seq<Skill>): seq<string> {
    var flat := FlatItems(skills);
    if |flat| <= 8 then flat else flat[..8]
  }

  /** The resume template's body: its heading, the experience and education
      sections, the key skills line, and the links. */
  function ResumeBody(info: PersonalInfo, skills: seq<Skill>): string {
    ResumeHeading + ResumeSections(info) + KeySkillsLine(skills) + ResumeLinks
  }

  const ResumeHeading: string := "Resume & Experience\n"

  function ResumeSections(info: PersonalInfo): string {
    "\n"
    + info.name + "\n"
    + info.title + "\n"
    + info.email + " | " + info.location + "\n"
    + "\n"
    + "Professional Experience:\n"
    + Bulleted(info.experience) + "\n"
    + "\n"
    + "Education:\n"
    + Bulleted(info.education) + "\n"
    + "\n"
  }

  function KeySkillsLine(skills: seq<Skill>): string {
    "Key Skills: " + Join(KeySkillsList(skills), ", ") + "\n"
  }

  const ResumeLinks: string :=
    "\n"
    + "Download full resume: /resume.pdf\n"
    + "LinkedIn: /linkedin\n"
    + "GitHub: /github"

  // ---------------------------------------------------------------------
  // The table
  // ---------------------------------------------------------------------

  /** The content the terminal treats as "clear the screen". */
  const ClearScreenSentinel: string := "CLEAR_SCREEN"

  const ClearScreen: Response := Line(TerminalLine(System, ClearScreenSentinel))

  // The handlers, one per registration. None of them reads its arguments.

  function HelpHandler(args: seq<string>): Outcome {
    Returned(Line(TerminalLine(Info, Trim(Template(HelpBody)))))
  }

  function AboutHandler(args: seq<string>): Outcome {
    Returned(Line(TerminalLine(Output, Trim(Template(AboutBody(PersonalInfoData))))))
  }

  function SkillsHandler(args: seq<string>): Outcome {
    Returned(Line(TerminalLine(Output, SkillsText(SkillsData))))
  }

  function ProjectsHandler(args: seq<string>): Outcome {
    Returned(Line(TerminalLine(Output, ProjectsText(ProjectsData))))
  }

  function ResumeHandler(args: seq<string>): Outcome {
    Returned(Line(TerminalLine(Output, Trim(Template(ResumeBody(PersonalInfoData, SkillsData))))))
  }

  function ContactHandler(args: seq<string>): Outcome {
    Returned(Line(TerminalLine(Output, Trim(Template(ContactBody(PersonalInfoData))))))
  }

  function ClearHandler(args: seq<string>): Outcome {
    Returned(ClearScreen)
  }

  function ThemeHandler(args: seq<string>): Outcome {
    Returned(Text(ThemeText))
  }

  function ChatHandler(args: seq<string>): Outcome {
    Returned(Text(Template(ChatBody)))
  }

  function WhoamiHandler(args: seq<string>): Outcome {
    Returned(Text(WhoamiText))
  }

  /** `new Date().toLocaleString()` is read from the clock; `now` stands for it. */
  function DateHandler(now: string, args: seq<string>): Outcome {
    Returned(Text(now))
  }

  function LsHandler(args: seq<string>): Outcome {
    Returned(Text(Template(LsBody)))
  }

  /** The registered commands, in table order. */
  function CommandTable(now: string): seq<Command> {
    [ Registration("help", "Show available commands", ["h", "?"], HelpHandler),
      Registration("about", "Show personal information", [], AboutHandler),
      Registration("skills", "Display technical skills", [], SkillsHandler),
      Registration("projects", "List portfolio projects", [], ProjectsHandler),
      Registration("resume", "View resume information", [], ResumeHandler),
      Registration("contact", "Show contact information", [], ContactHandler),
      Registration("clear", "Clear the terminal screen", ["cls"], ClearHandler),
      Registration("theme", "Toggle theme", [], ThemeHandler),
      Registration("chat", "Start AI conversation", ["ai"], ChatHandler),
      Registration("whoami", "Show current user", [], WhoamiHandler),
      Registration("date", "Show current date and time", [], args => DateHandler(now, args)),
      Registration("ls", "List directory contents", [], LsHandler)
    ]
  }

  // ---------------------------------------------------------------------
  // The dispatcher
  // ---------------------------------------------------------------------

  /** The command name and the arguments of a typed line. */
  datatype Parsed = Parsed(commandName: string, args: seq<string>)

  /** `input.toLowerCase().trim().split(' ')`, destructured into the first
      piece and the rest; joining the pieces back gives the normalised line. */
  function Parse(input: string): (p: Parsed)
    ensures ' ' !in p.commandName
    ensures forall i :: 0 <= i < |p.args| ==> ' ' !in p.args[i]
    ensures Join([p.commandName] + p.args, " ") == Trim(Lower(input))
  {
    var parts := Split(Trim(Lower(input)), ' ');
    assert [parts[0]] + parts[1..] == parts;
    Parsed(parts[0], parts[1..])
  }

  /** `cmd.name === key || cmd.aliases.includes(key)`. */
  predicate Matches(cmd: Command, key: string) {
    cmd.name == key || key in cmd.aliases
  }

  /** `commands.find(...)`, as the position of the first matching command. */
  function Find(table: seq<Command>, key: string): (r: Option<nat>)
    ensures r.Some? ==> r.value < |table| && Matches(table[r.value], key)
    ensures r.Some? ==> forall j :: 0 <= j < r.value ==> !Matches(table[j], key)
    ensures r.None? <==> forall j :: 0 <= j < |table| ==> !Matches(table[j], key)
  {
    if table == [] then None
    else if Matches(table[0], key) then Some(0)
    else match Find(table[1..], key)
      case Some(k) => Some(k + 1)
      case None => None
  }

  const EmptyInputMessage: string := "Please enter a command. Type \"help\" for available commands."

  function UnknownCommandMessage(commandName: string): string {
    "Command '" + commandName + "' not found. Type " + "'help'" + " for available commands."
  }

  function ExecutionErrorMessage(error: string): string {
    "Error executing command: " + error
  }

  /** What `commandHandler` answers once the line is parsed. */
  function Answer(table: seq<Command>, p: Parsed): Response {
    if p.commandName == "" then ErrorLine(EmptyInputMessage)
    else if p.commandName == "clear" || p.commandName == "cls" then ClearScreen
    else match Find(table, p.commandName)
      case Some(k) =>
        (match table[k].execute(p.args)
           case Returned(response) => response
           case Threw(error) => ErrorLine(ExecutionErrorMessage(error)))
      case None => ErrorLine(UnknownCommandMessage(p.commandName))
  }

  /** `commandHandler` over a given table. */
  function Dispatch(table: seq<Command>, input: string): Response {
    Answer(table, Parse(input))
  }

  /** `commandHandler` itself, over the portfolio's table. */
  function CommandHandler(input: string, now: string): Response {
    Dispatch(CommandTable(now), input)
  }
}
