/**
 * What the `skills`, `projects` and `resume` listings promise: every
 * category and project has its own block, in order and numbered from 1;
 * a project's Live and Code lines appear exactly when those links are
 * present; the key skills are the first eight items of the flattened
 * categories; and the listings open with their headings once trimmed.
 */
module ListingProperties {
  import opened TextUtil
  import opened TerminalTypes
  import opened Commands

  // ---------------------------------------------------------------------
  // Counting lines
  // ---------------------------------------------------------------------

  /** The number of line feeds in `s`. */
  function Newlines(s: string): nat {
    if s == [] then 0 else Newlines(s[..|s| - 1]) + (if s[|s| - 1] == '\n' then 1 else 0)
  }

  lemma {:induction false} NewlinesAppend(a: string, b: string)
    ensures Newlines(a + b) == Newlines(a) + Newlines(b)
    decreases |b|
  {
    if b == [] {
      assert a + b == a;
    } else {
      assert (a + b)[..|a + b| - 1] == a + b[..|b| - 1];
      NewlinesAppend(a, b[..|b| - 1]);
    }
  }

  lemma {:induction false} NoNewlines(s: string)
    requires '\n' !in s
    ensures Newlines(s) == 0
    decreases |s|
  {
    if s != [] {
      assert s[|s| - 1] in s;
      assert forall c :: c in s[..|s| - 1] ==> c in s;
      NoNewlines(s[..|s| - 1]);
    }
  }

  /** Joining pieces without line feeds by a separator without line feeds
      gives one line. */
  lemma {:induction false} JoinOneLine(parts: seq<string>, sep: string)
    requires forall i :: 0 <= i < |parts| ==> '\n' !in parts[i]
    requires '\n' !in sep
    ensures '\n' !in Join(parts, sep)
    decreases |parts|
  {
    if |parts| > 1 {
      JoinOneLine(parts[1..], sep);
      assert forall i :: 0 <= i < |parts[1..]| ==> parts[1..][i] == parts[i + 1];
    }
  }

  // ---------------------------------------------------------------------
  // projects
  // ---------------------------------------------------------------------

  /** The entry of the project at position `k` sits in the listing right
      after the entries of the projects before it. */
  lemma {:induction false} ProjectEntryAt(projects: seq<Project>, k: nat)
    requires k < |projects|
    ensures OccursAt(ProjectEntries(projects), ProjectEntry(k, projects[k]),
                     |ProjectEntries(projects[..k])|)
    decreases |projects|
  {
    var n := |projects| - 1;
    var init := projects[..n];
    var before := ProjectEntries(init);
    var last := ProjectEntry(n, projects[n]);
    assert ProjectEntries(projects) == before + last;
    if k == n {
      assert init == projects[..k];
      OccursBetween(before, last, "");
      assert before + last + "" == before + last;
    } else {
      ProjectEntryAt(init, k);
      assert init[k] == projects[k];
      assert init[..k] == projects[..k];
      OccursBefore(before, last, ProjectEntry(k, projects[k]), |ProjectEntries(projects[..k])|);
    }
  }

  /** An entry opens with its one-based number, a dot, and the project's
      name; the number reads back as `k + 1`. */
  lemma ProjectEntryNumbered(k: nat, project: Project)
    ensures OccursAt(ProjectEntry(k, project), NatToString(k + 1) + ". " + project.name, 0)
    ensures DigitsValue(NatToString(k + 1)) == k + 1
  {
    NatToStringValue(k + 1);
    var head := NatToString(k + 1) + ". " + project.name;
    var e := ProjectEntry(k, project);
    assert e == head + (e[|head|..]);
  }

  /** A project's title line ends in " (Featured)" exactly when the project
      is featured, provided its name does not itself end in "(Featured)". */
  lemma FeaturedMarked(k: nat, project: Project)
    requires !(|project.name| >= 10 && project.name[|project.name| - 10..] == "(Featured)")
    ensures var t := ProjectTitle(k, project);
            (|t| >= 12 && t[|t| - 12..] == " (Featured)\n") <==> project.featured
  {
    var head := NatToString(k + 1) + ". " + project.name;
    if project.featured {
      assert ProjectTitle(k, project) == head + " (Featured)\n";
      MarkEnds(head, " (Featured)\n");
    } else {
      assert ProjectTitle(k, project) == NatToString(k + 1) + ". " + project.name + "\n";
      NoMarkAfterName(NatToString(k + 1), project.name);
    }
  }

  lemma MarkEnds(a: string, mark: string)
    ensures var t := a + mark; |t| >= |mark| && t[|t| - |mark|..] == mark
  {
  }

  /** A line `pre + ". " + name + "\n"` ends in " (Featured)\n" only when
      the name ends in "(Featured)": otherwise the mark would have to hold
      the name's last characters or the ". " before them. */
  lemma NoMarkAfterName(pre: string, name: string)
    requires !(|name| >= 10 && name[|name| - 10..] == "(Featured)")
    ensures var t := pre + ". " + name + "\n";
            !(|t| >= 12 && t[|t| - 12..] == " (Featured)\n")
  {
    var mark := " (Featured)\n";
    if |name| >= 10 {
      NameUnderMark(pre, name);
      assert mark[1..11] == "(Featured)";
    } else {
      DotUnderMark(pre, name);
      assert mark[9 - |name|] != '.';
    }
  }

  lemma NameUnderMark(pre: string, name: string)
    requires |name| >= 10
    ensures var t := pre + ". " + name + "\n";
            |t| >= 12 && t[|t| - 12..][1..11] == name[|name| - 10..]
  {
    var u := pre + ". " + name;
    var t := u + "\n";
    assert t[|t| - 12..][1..11] == u[|u| - 10..];
    assert u[|u| - 10..] == name[|name| - 10..];
  }

  lemma DotUnderMark(pre: string, name: string)
    requires |name| < 10
    ensures var t := pre + ". " + name + "\n";
            |t| >= 12 ==> t[|t| - 12..][9 - |name|] == '.'
  {
    var t := pre + ". " + name + "\n";
    assert t[|t| - |name| - 3] == '.';
  }

  /** With a present `url`, the Live line follows the Tech line. */
  lemma LiveLineShown(k: nat, project: Project)
    requires Present(project.url)
    ensures OccursAt(ProjectEntry(k, project), "   Live: " + project.url.value + "\n",
                     |ProjectTitle(k, project) + DescriptionLine(project) + TechLine(project)|)
  {
    var a := ProjectTitle(k, project) + DescriptionLine(project) + TechLine(project);
    var rest := (if Present(project.github) then CodeLine(project) else "") + "\n";
    assert ProjectEntry(k, project) == a + LiveLine(project) + rest;
    OccursBetween(a, LiveLine(project), rest);
  }

  /** With a present `github`, the Code line is the entry's last line. */
  lemma CodeLineShown(k: nat, project: Project)
    requires Present(project.github)
    ensures OccursAt(ProjectEntry(k, project), "   Code: " + project.github.value + "\n",
                     |ProjectEntry(k, project)| - |CodeLine(project)| - 1)
  {
    var a := ProjectTitle(k, project) + DescriptionLine(project) + TechLine(project)
      + (if Present(project.url) then LiveLine(project) else "");
    assert ProjectEntry(k, project) == a + CodeLine(project) + "\n";
    OccursBetween(a, CodeLine(project), "\n");
  }

  /** The fields of a project hold one line each. */
  predicate OneLineFields(project: Project) {
    && '\n' !in project.name && '\n' !in project.description
    && (forall i :: 0 <= i < |project.technologies| ==> '\n' !in project.technologies[i])
    && (project.url.Some? ==> '\n' !in project.url.value)
    && (project.github.Some? ==> '\n' !in project.github.value)
  }

  lemma OneLine(body: string)
    requires '\n' !in body
    ensures Newlines(body + "\n") == 1
  {
    NoNewlines(body);
    NewlinesAppend(body, "\n");
  }

  lemma NewlinesOfSix(a: string, b: string, c: string, d: string, e: string, f: string)
    ensures Newlines(a + b + c + d + e + f)
            == Newlines(a) + Newlines(b) + Newlines(c) + Newlines(d) + Newlines(e) + Newlines(f)
  {
    NewlinesAppend(a, b);
    NewlinesAppend(a + b, c);
    NewlinesAppend(a + b + c, d);
    NewlinesAppend(a + b + c + d, e);
    NewlinesAppend(a + b + c + d + e, f);
  }

  lemma TitleOneLine(k: nat, project: Project)
    requires '\n' !in project.name
    ensures Newlines(ProjectTitle(k, project)) == 1
  {
    var num := NatToString(k + 1);
    assert '\n' !in num by {
      forall i | 0 <= i < |num| ensures num[i] != '\n' { }
    }
    var mark := if project.featured then " (Featured)" else "";
    var head := num + ". " + project.name + mark;
    assert '\n' !in head;
    OneLine(head);
  }

  /** An entry of one-line fields has a title, description and tech line,
      one line per present link, and a closing blank line. */
  lemma ProjectEntryLines(k: nat, project: Project)
    requires OneLineFields(project)
    ensures Newlines(ProjectEntry(k, project))
            == 4 + (if Present(project.url) then 1 else 0) + (if Present(project.github) then 1 else 0)
  {
    var title := ProjectTitle(k, project);
    var desc := DescriptionLine(project);
    var tech := TechLine(project);
    var live := if Present(project.url) then LiveLine(project) else "";
    var code := if Present(project.github) then CodeLine(project) else "";
    TitleOneLine(k, project);
    OneLine("   " + project.description);
    JoinOneLine(project.technologies, ", ");
    OneLine("   Tech: " + Join(project.technologies, ", "));
    if Present(project.url) {
      OneLine("   Live: " + project.url.value);
    }
    if Present(project.github) {
      OneLine("   Code: " + project.github.value);
    }
    NewlinesOfSix(title, desc, tech, live, code, "\n");
  }

  /** The `projects` reply opens with its heading. */
  lemma ProjectsTextHeading(projects: seq<Project>)
    ensures |ProjectsText(projects)| >= 18
    ensures ProjectsText(projects)[..18] == "Portfolio Projects"
  {
    var entries := ProjectEntries(projects);
    AppendAssociates("\n" + "Portfolio Projects", "\n\n", entries);
    TrimKeepsHead("\n", "Portfolio Projects", "\n\n" + entries);
  }

  // ---------------------------------------------------------------------
  // skills
  // ---------------------------------------------------------------------

  /** The block of category `c` sits right after the blocks before it. */
  lemma {:induction false} SkillBlockAt(skills: seq<Skill>, c: nat)
    requires c < |skills|
    ensures OccursAt(SkillBlocks(skills), SkillBlock(skills[c]), |SkillBlocks(skills[..c])|)
    decreases |skills|
  {
    var n := |skills| - 1;
    var init := skills[..n];
    var before := SkillBlocks(init);
    var last := SkillBlock(skills[n]);
    assert SkillBlocks(skills) == before + last;
    if c == n {
      assert init == skills[..c];
      OccursBetween(before, last, "");
      assert before + last + "" == before + last;
    } else {
      SkillBlockAt(init, c);
      assert init[c] == skills[c];
      assert init[..c] == skills[..c];
      OccursBefore(before, last, SkillBlock(skills[c]), |SkillBlocks(skills[..c])|);
    }
  }

  /** The `skills` reply opens with its heading. */
  lemma SkillsTextHeading(skills: seq<Skill>)
    ensures |SkillsText(skills)| >= 28
    ensures SkillsText(skills)[..28] == "Technical Skills & Expertise"
  {
    var blocks := SkillBlocks(skills);
    AppendAssociates("\n" + "Technical Skills & Expertise", "\n\n", blocks);
    TrimKeepsHead("\n", "Technical Skills & Expertise", "\n\n" + blocks);
  }

  // ---------------------------------------------------------------------
  // resume
  // ---------------------------------------------------------------------

  /** `flatMap` keeps every item, category after category: item `j` of
      category `c` follows the items of the categories before `c`. */
  lemma {:induction false} FlatItemsAt(skills: seq<Skill>, c: nat, j: nat)
    requires c < |skills| && j < |skills[c].items|
    ensures |FlatItems(skills[..c])| + j < |FlatItems(skills)|
    ensures FlatItems(skills)[|FlatItems(skills[..c])| + j] == skills[c].items[j]
    decreases c
  {
    if c == 0 {
      assert skills[..c] == [];
    } else {
      FlatItemsAt(skills[1..], c - 1, j);
      assert skills[1..][..c - 1] == skills[..c][1..];
      assert skills[1..][c - 1] == skills[c];
    }
  }

  /** The resume reply, once trimmed, holds a "Key Skills: " line listing
      the first eight flattened items, or all of them when there are fewer,
      joined by ", ". */
  lemma ResumeListsKeySkills(info: PersonalInfo, skills: seq<Skill>)
    ensures var flat := FlatItems(skills);
            var n := if |flat| < 8 then |flat| else 8;
            Contains(Trim(Template(ResumeBody(info, skills))),
                     "Key Skills: " + Join(flat[..n], ", ") + "\n")
  {
    var flat := FlatItems(skills);
    var n := if |flat| < 8 then |flat| else 8;
    assert KeySkillsList(skills) == flat[..n];
    ResumeKeptWhole(info, skills);
    var k := ResumeKeySkillsLine(info, skills);
    ContainsAt(ResumeBody(info, skills), "Key Skills: " + Join(flat[..n], ", ") + "\n", k);
  }

  /** `trim` keeps the resume template's body whole. */
  lemma ResumeKeptWhole(info: PersonalInfo, skills: seq<Skill>)
    ensures Trim(Template(ResumeBody(info, skills))) == ResumeBody(info, skills)
  {
    var front := ResumeHeading + ResumeSections(info) + KeySkillsLine(skills);
    var body := front + ResumeLinks;
    assert body[0] == ResumeHeading[0] == 'R';
    assert body[|body| - 1] == ResumeLinks[|ResumeLinks| - 1] == 'b';
    TrimFramed("\n", body, "\n      ");
  }

  /** Where the "Key Skills: " line sits in the resume body. */
  lemma ResumeKeySkillsLine(info: PersonalInfo, skills: seq<Skill>) returns (k: nat)
    ensures OccursAt(ResumeBody(info, skills), "Key Skills: " + Join(KeySkillsList(skills), ", ") + "\n", k)
  {
    OccursBetween(ResumeHeading + ResumeSections(info), KeySkillsLine(skills), ResumeLinks);
    k := |ResumeHeading + ResumeSections(info)|;
  }

  /** The portfolio's key skills: the six frontend items, then the first
      two backend items. */
  lemma ResumeKeySkills()
    ensures KeySkillsList(SkillsData)
            == ["React", "TypeScript", "Next.js", "Tailwind CSS", "Three.js", "Vue.js", "Node.js", "Python"]
  {
    var s := SkillsData;
    assert s[..0] == [];
    assert FlatItems(s[..0]) == [];
    FlatItemsAt(s, 0, 0);
    FlatItemsAt(s, 0, 1);
    FlatItemsAt(s, 0, 2);
    FlatItemsAt(s, 0, 3);
    FlatItemsAt(s, 0, 4);
    FlatItemsAt(s, 0, 5);
    assert s[..1] == [s[0]];
    assert FlatItems(s[..1]) == s[0].items;
    FlatItemsAt(s, 1, 0);
    FlatItemsAt(s, 1, 1);
  }
}
