/**
 * The `bitbucket-pipelines.yml` example the Bitbucket tutorial shows for .NET projects:
 * one build step that runs the .NET scanner, used for the main branch and, when branch
 * analysis is available, for pull requests.
 *
 * The template is cut at its two interpolations, its one conditional, and around the two
 * pipeline variables; `Pieces` holds the fixed text between the cuts, and `PIECES` the
 * text of the template itself. The properties are proved for any fixed text with the
 * shape the template relies on, then read off for the template.
 */
module DotNetPipeline {

  /** The fixed text of the template, in order. */
  datatype Pieces = Pieces(
    imageLine: string,        // the first line
    buildStepHead: string,    // up to the scanner's `begin` command
    beforeToken: string,      // between the project key and the token variable
    tokenArg: string,
    beforeHost: string,
    hostArg: string,
    buildStepTail: string,    // from the end of `begin` to the `pipelines:` heading
    pipelinesHeading: string,
    stepReference: string,
    pullRequestsHead: string) // the conditional block, without its closing step reference

  /** The line-break shape the template has: a step reference does not end with a line break. */
  ghost predicate WellShaped(p: Pieces)
  {
    p.stepReference != [] && p.stepReference[|p.stepReference| - 1] != '\n'
  }

  const PIECES: Pieces := Pieces(
    "image: mcr.microsoft.com/dotnet/sdk:7.0\n",
    "\n" +
    "definitions:\n" +
    "  steps:\n" +
    "    - step: &build-step\n" +
    "        name: SonarQube analysis\n" +
    "        caches:\n" +
    "          - dotnetcore\n" +
    "          - sonar\n" +
    "        script:\n" +
    "          - apt-get update\n" +
    "          - apt-get install --yes --no-install-recommends openjdk-17-jre\n" +
    "          - dotnet tool install --global dotnet-sonarscanner\n" +
    "          - export PATH=\"$PATH:/root/.dotnet/tools\"\n" +
    "          - dotnet sonarscanner begin ",
    " /d:\"",
    "sonar.token=${SONAR_TOKEN}",
    "\"  /d:\"",
    "sonar.host.url=${SONAR_HOST_URL}",
    "\"\n" +
    "          - dotnet build \n" +
    "          - dotnet sonarscanner end /d:\"sonar.token=${SONAR_TOKEN}\"\n" +
    "  caches:\n" +
    "    sonar: ~/.sonar\n" +
    "\n",
    "pipelines:\n" +
    "  branches:\n",
    "      - step: *build-step",
    "\n" +
    "  pull-requests:\n" +
    "    '**':\n")

  /** The main branch's pattern line, as the template writes it. */
  function MainBranchPattern(mainBranchName: string): string
  {
    "    '{" + mainBranchName + "}':"
  }

  /** The project-key argument of the `begin` command. */
  function ProjectKeyArg(projectKey: string): string
  {
    "/k:\"" + projectKey + "\""
  }

  function PullRequests(p: Pieces): string
  {
    p.pullRequestsHead + p.stepReference
  }

  /** Everything up to the project-key argument. */
  function Preamble(p: Pieces): string
  {
    p.imageLine + p.buildStepHead
  }

  /** Everything after the project key, up to the main branch's pattern. */
  function BeginTail(p: Pieces): string
  {
    p.beforeToken + p.tokenArg + p.beforeHost + p.hostArg + p.buildStepTail + p.pipelinesHeading
  }

  /** The template over any fixed text. */
  function Template(p: Pieces, branchesEnabled: bool, mainBranchName: string, projectKey: string): string
  {
    Preamble(p) + ProjectKeyArg(projectKey) + BeginTail(p)
    + MainBranchPattern(mainBranchName) + "\n" + p.stepReference + "\n"
    + (if branchesEnabled then PullRequests(p) else "")
  }

  function DotNetExample(branchesEnabled: bool, mainBranchName: string, projectKey: string): (r: string)
  {
    Template(PIECES, branchesEnabled, mainBranchName, projectKey)
  }

  /** `x` occurs in `s` at position `i`. */
  predicate OccursAt(s: string, x: string, i: nat)
  {
    i + |x| <= |s| && s[i..i + |x|] == x
  }

  /** An occurrence survives putting text around it, shifted by what went in front. */
  lemma OccursAround(p: string, s: string, q: string, x: string, i: nat)
    requires OccursAt(s, x, i)
    ensures OccursAt(p + s + q, x, |p| + i)
  {
    assert (p + s + q)[|p| + i..|p| + i + |x|] == s[i..i + |x|];
  }

  // ---------------------------------------------------------------------
  // The template over any fixed text
  // ---------------------------------------------------------------------

  lemma TemplateStartsWithImage(p: Pieces, branchesEnabled: bool, mainBranchName: string, projectKey: string)
    ensures OccursAt(Template(p, branchesEnabled, mainBranchName, projectKey), p.imageLine, 0)
  {
    var r := Template(p, branchesEnabled, mainBranchName, projectKey);
    assert r[..|p.imageLine|] == p.imageLine;
  }

  lemma TemplateProjectKey(p: Pieces, branchesEnabled: bool, mainBranchName: string, projectKey: string)
    ensures OccursAt(Template(p, branchesEnabled, mainBranchName, projectKey), ProjectKeyArg(projectKey), |Preamble(p)|)
  {
    var r := Template(p, branchesEnabled, mainBranchName, projectKey);
    var rest := r[|Preamble(p)| + |ProjectKeyArg(projectKey)|..];
    assert r == Preamble(p) + ProjectKeyArg(projectKey) + rest;
    OccursAround(Preamble(p), ProjectKeyArg(projectKey), rest, ProjectKeyArg(projectKey), 0);
  }

  lemma TemplateVariables(p: Pieces, branchesEnabled: bool, mainBranchName: string, projectKey: string)
    ensures var r := Template(p, branchesEnabled, mainBranchName, projectKey);
      var i := |Preamble(p)| + |ProjectKeyArg(projectKey)| + |p.beforeToken|;
      OccursAt(r, p.tokenArg, i) && OccursAt(r, p.hostArg, i + |p.tokenArg| + |p.beforeHost|)
  {
    var r := Template(p, branchesEnabled, mainBranchName, projectKey);
    var front := Preamble(p) + ProjectKeyArg(projectKey) + p.beforeToken;
    var i := |front|;
    var j := i + |p.tokenArg| + |p.beforeHost|;
    assert r[i..i + |p.tokenArg|] == p.tokenArg;
    assert r[j..j + |p.hostArg|] == p.hostArg;
  }

  lemma TemplateMainBranch(p: Pieces, branchesEnabled: bool, mainBranchName: string, projectKey: string)
    ensures var r := Template(p, branchesEnabled, mainBranchName, projectKey);
      var i := |Preamble(p)| + |ProjectKeyArg(projectKey)| + |BeginTail(p)| - |p.pipelinesHeading|;
      OccursAt(r, p.pipelinesHeading + MainBranchPattern(mainBranchName), i)
  {
    var r := Template(p, branchesEnabled, mainBranchName, projectKey);
    var i := |Preamble(p)| + |ProjectKeyArg(projectKey)| + |BeginTail(p)| - |p.pipelinesHeading|;
    var x := p.pipelinesHeading + MainBranchPattern(mainBranchName);
    assert r[i..i + |x|] == x;
  }

  /** `s` ends with `x`. */
  predicate EndsWith(s: string, x: string)
  {
    |x| <= |s| && s[|s| - |x|..] == x
  }

  lemma TemplatePullRequests(p: Pieces, branchesEnabled: bool, mainBranchName: string, projectKey: string)
    requires WellShaped(p)
    ensures Template(p, true, mainBranchName, projectKey) == Template(p, false, mainBranchName, projectKey) + PullRequests(p)
    ensures branchesEnabled <==> EndsWith(Template(p, branchesEnabled, mainBranchName, projectKey), PullRequests(p))
  {
    var without := Template(p, false, mainBranchName, projectKey);
    var with := Template(p, true, mainBranchName, projectKey);
    assert with == without + PullRequests(p);
    assert with[|with| - |PullRequests(p)|..] == PullRequests(p);
    var n, m := |without|, |PullRequests(p)|;
    assert without[n - 1] == '\n';
    assert PullRequests(p)[m - 1] == p.stepReference[|p.stepReference| - 1];
    assert !EndsWith(without, PullRequests(p)) by {
      if m <= n {
        assert without[n - m..][m - 1] == without[n - 1];
      }
    }
  }

  // ---------------------------------------------------------------------
  // The template itself
  // ---------------------------------------------------------------------

  lemma PiecesWellShaped()
    ensures WellShaped(PIECES)
  {
  }

  /** The output starts with the .NET 7 SDK image. */
  lemma StartsWithImage(branchesEnabled: bool, mainBranchName: string, projectKey: string)
    ensures OccursAt(DotNetExample(branchesEnabled, mainBranchName, projectKey), "image: mcr.microsoft.com/dotnet/sdk:7.0\n", 0)
  {
    TemplateStartsWithImage(PIECES, branchesEnabled, mainBranchName, projectKey);
  }

  /** The `begin` command names the project right after the fixed preamble. */
  lemma ProjectKeyOccurs(branchesEnabled: bool, mainBranchName: string, projectKey: string)
    ensures OccursAt(DotNetExample(branchesEnabled, mainBranchName, projectKey), ProjectKeyArg(projectKey), |Preamble(PIECES)|)
  {
    TemplateProjectKey(PIECES, branchesEnabled, mainBranchName, projectKey);
  }

  /** The token and the host URL are passed right after the project key, as fixed text whatever the arguments. */
  lemma VariablesWrittenLiterally(branchesEnabled: bool, mainBranchName: string, projectKey: string)
    ensures var r := DotNetExample(branchesEnabled, mainBranchName, projectKey);
      var i := |Preamble(PIECES)| + |ProjectKeyArg(projectKey)| + |PIECES.beforeToken|;
      && OccursAt(r, PIECES.tokenArg, i)
      && OccursAt(r, PIECES.hostArg, i + |PIECES.tokenArg| + |PIECES.beforeHost|)
  {
    TemplateVariables(PIECES, branchesEnabled, mainBranchName, projectKey);
  }

  /** That fixed text names the pipeline variables for Bitbucket to substitute. */
  lemma VariablesAreBitbucketReferences()
    ensures PIECES.tokenArg == "sonar.token=${SONAR_TOKEN}"
    ensures PIECES.hostArg == "sonar.host.url=${SONAR_HOST_URL}"
  {
  }

  /** The main branch is the first entry under `pipelines: branches:`. */
  lemma MainBranchUnderBranches(branchesEnabled: bool, mainBranchName: string, projectKey: string)
    ensures var r := DotNetExample(branchesEnabled, mainBranchName, projectKey);
      var i := |Preamble(PIECES)| + |ProjectKeyArg(projectKey)| + |BeginTail(PIECES)| - |PIECES.pipelinesHeading|;
      OccursAt(r, PIECES.pipelinesHeading + MainBranchPattern(mainBranchName), i)
  {
    TemplateMainBranch(PIECES, branchesEnabled, mainBranchName, projectKey);
  }

  /**
   * With branch analysis the output is the one without it followed by the pull-request
   * block, and the output ends with that block exactly when branch analysis is enabled.
   */
  lemma PullRequestsBlockIff(branchesEnabled: bool, mainBranchName: string, projectKey: string)
    ensures DotNetExample(true, mainBranchName, projectKey) == DotNetExample(false, mainBranchName, projectKey) + PullRequests(PIECES)
    ensures branchesEnabled <==> EndsWith(DotNetExample(branchesEnabled, mainBranchName, projectKey), PullRequests(PIECES))
  {
    PiecesWellShaped();
    TemplatePullRequests(PIECES, branchesEnabled, mainBranchName, projectKey);
  }
}
