/** Crontab files: `parseCronFile` of agent/internal/collector/snapshot.go, and the job id that
agent/cmd/agent/cron_wrapper.go derives when none is given.
*/
module CronLines {
  import opened Options
  import opened Text
  import CronParser

  datatype Job = Job(source: string, owner: string, schedule: string, command: string, next: Option<int>)

  /** The line up to its first space. */
  function FirstWord(line: string): string { Split(line, ' ')[0] }

  predicate Skipped(line: string) { line == "" || line[0] == '#' || '=' in FirstWord(line) }

  function ScheduleFields(line: string): (n: nat)
    ensures n == 1 || n == 5
  {
    if line != "" && line[0] == '@' then 1 else 5
  }

  /** The job of a line's fields, the first `n` of which are the schedule; `system` says whether a
      field for the owner follows. */
  function JobOfFields(n: nat, fields: seq<string>, source: string, defaultOwner: string, system: bool,
      now: int): Option<Job> {
    var commandIndex := if system then n + 1 else n;
    if |fields| <= commandIndex then None
    else
      var schedule := Join(fields[..n], " ");
      Some(Job(source, if system then fields[n] else defaultOwner, schedule, Join(fields[commandIndex..], " "),
               CronParser.NextRun(schedule, now)))
  }

  /** The job of one line of the file. */
  function JobOf(raw: string, source: string, defaultOwner: string, system: bool, now: int): Option<Job> {
    var line := TrimSpace(raw);
    if Skipped(line) then None
    else JobOfFields(ScheduleFields(line), Fields(line), source, defaultOwner, system, now)
  }

  function JobsOf(lines: seq<string>, source: string, defaultOwner: string, system: bool, now: int): seq<Job> {
    if lines == [] then []
    else
      var last := JobOf(lines[|lines| - 1], source, defaultOwner, system, now);
      JobsOf(lines[..|lines| - 1], source, defaultOwner, system, now) + if last.Some? then [last.value] else []
  }

  function FileJobs(content: string, source: string, defaultOwner: string, system: bool, now: int): seq<Job> {
    JobsOf(Split(content, '\n'), source, defaultOwner, system, now)
  }

  method ParseCronFile(content: string, source: string, defaultOwner: string, system: bool, now: int)
    returns (jobs: seq<Job>)
    ensures jobs == FileJobs(content, source, defaultOwner, system, now)
  {
    hide TrimSpace, Fields, Join, CronParser.NextRun;
    jobs := [];
    var lines := Split(content, '\n');
    for i := 0 to |lines|
      invariant jobs == JobsOf(lines[..i], source, defaultOwner, system, now)
    {
      assert lines[..i + 1][..i] == lines[..i];
      var line := TrimSpace(lines[i]);
      if line == "" || line[0] == '#' || '=' in FirstWord(line) { continue; }
      var fields := Fields(line);
      var scheduleFields := 5;
      if line[0] == '@' { scheduleFields := 1; }
      if |fields| < scheduleFields { continue; }
      var commandIndex := scheduleFields;
      var owner := defaultOwner;
      if system {
        commandIndex := commandIndex + 1;
        if |fields| > scheduleFields { owner := fields[scheduleFields]; }
      }
      if |fields| <= commandIndex { continue; }
      var schedule := Join(fields[..scheduleFields], " ");
      var next := CronParser.NextCronRun(schedule, now);
      jobs := jobs + [Job(source, owner, schedule, Join(fields[commandIndex..], " "), next)];
    }
    assert lines[..|lines|] == lines;
  }

  // ----- which lines are jobs -----

  lemma FieldsLackSpace(fields: seq<string>)
    requires forall f :: f in fields ==> IsToken(f)
    ensures forall f :: f in fields ==> Lacks(f, ' ') && Lacks(f, '\n')
  {
    assert IsSpace(' ') && IsSpace('\n');
  }

  /** The job of a line of words: none for a comment, an assignment or too few words; otherwise the first
      word, if it is a name, or the first five are the schedule, the next one is the owner in a system
      file, and the rest is the command. */
  lemma JobOfWords(words: seq<string>, source: string, defaultOwner: string, system: bool, now: int)
    requires words != [] && forall w :: w in words ==> IsToken(w)
    ensures words[0] != ""
    ensures var n := if words[0][0] == '@' then 1 else 5; var at := if system then n + 1 else n;
            var job := JobOf(Join(words, " "), source, defaultOwner, system, now);
            && (job.Some? <==> words[0][0] != '#' && '=' !in words[0] && |words| > at)
            && (job.Some? ==>
                  && job.value.source == source && job.value.owner == (if system then words[n] else defaultOwner)
                  && job.value.schedule == Join(words[..n], " ") && job.value.command == Join(words[at..], " ")
                  && job.value.next == CronParser.NextRun(job.value.schedule, now))
  {
    hide TrimSpace, Fields, Join, Split, IsSpace, CronParser.NextRun;
    assert words[0] in words;
    var line := Join(words, " ");
    JoinTrimmed(words);
    TrimmedStays(line);
    FieldsJoin(words);
    FieldsLackSpace(words);
    SplitJoin(words, ' ');
    assert line[0] == words[0][0];
  }

  /** A line that begins with `#`, after white space or not, is no job. */
  lemma CommentLine(left: string, rest: string, source: string, defaultOwner: string, system: bool, now: int)
    requires AllSpace(left)
    ensures JobOf(left + "#" + rest, source, defaultOwner, system, now) == None
  {
    hide Fields, Join, FirstWord, JobOfFields;
    var raw := left + "#" + rest;
    assert raw == left + ("#" + rest);
    TrimLeftDrops(left, "#" + rest);
    assert !IsSpace('#');
    assert TrimLeft("#" + rest) == "#" + rest;
    KeepsFirst("#" + rest);
  }

  lemma {:induction false} KeepsFirst(s: string)
    requires s != "" && !IsSpace(s[0])
    ensures TrimRight(s) != "" && TrimRight(s)[0] == s[0]
  {
    if |s| > 1 && IsSpace(s[|s| - 1]) { KeepsFirst(s[..|s| - 1]); }
  }

  // ----- printing -----

  /** A job as one line, single spaces between the parts. */
  function Line(job: Job, system: bool): string {
    job.schedule + " " + (if system then job.owner + " " else "") + job.command
  }

  /** Every line in its canonical form. */
  function Lines(jobs: seq<Job>, system: bool): (r: seq<string>)
    ensures |r| == |jobs| && forall i :: 0 <= i < |jobs| ==> r[i] == Line(jobs[i], system)
  {
    seq(|jobs|, i requires 0 <= i < |jobs| => Line(jobs[i], system))
  }

  /** The canonical line is the original's fields, joined again. */
  lemma LineIsItsFields(raw: string, source: string, defaultOwner: string, system: bool, now: int)
    requires JobOf(raw, source, defaultOwner, system, now).Some?
    ensures Line(JobOf(raw, source, defaultOwner, system, now).value, system) == Join(Fields(TrimSpace(raw)), " ")
  {
    hide TrimSpace, Fields, Join, Skipped, CronParser.NextRun;
    var line := TrimSpace(raw);
    var fields := Fields(line);
    var n := ScheduleFields(line);
    assert fields == fields[..n] + fields[n..];
    JoinAppend(fields[..n], fields[n..], " ");
    if system {
      assert fields[n..] == [fields[n]] + fields[n + 1..];
      JoinAppend([fields[n]], fields[n + 1..], " ");
      JoinOne(fields[n]);
    }
  }

  lemma JoinOne(s: string)
    ensures Join([s], " ") == s
  {
  }

  lemma {:induction false} FirstWordLongest(line: string, p: string)
    requires p <= line && Lacks(p, ' ')
    ensures p <= FirstWord(line)
  {
    if p != "" {
      assert p[0] in p && forall c :: c in p[1..] ==> c in p;
      FirstWordLongest(line[1..], p[1..]);
    }
  }

  lemma FirstField(line: string)
    requires line != "" && !IsSpace(line[0])
    ensures Fields(line) != [] && Fields(line)[0] <= line && Fields(line)[0] != "" && Lacks(Fields(line)[0], ' ')
  {
    var n := TokenLength(line);
    assert Fields(line)[0] == line[..n];
    assert IsSpace(' ');
  }

  /** A line that names a job and its canonical form are skipped alike and have the same schedule
      length, because both begin with the same field. */
  lemma SameBeginning(line: string)
    requires line != "" && !IsSpace(line[0]) && !Skipped(line)
    ensures var c := Join(Fields(line), " ");
            !Skipped(c) && ScheduleFields(c) == ScheduleFields(line) && Fields(c) == Fields(line) && TrimSpace(c) == c
  {
    var fields := Fields(line);
    FirstField(line);
    FieldsJoin(fields);
    JoinTrimmed(fields);
    TrimmedStays(Join(fields, " "));
    FieldsLackSpace(fields);
    SplitJoin(fields, ' ');
    FirstWordLongest(line, fields[0]);
    hide Fields, Join, Split, TrimSpace;
    var first := fields[0];
    assert forall c :: c in first ==> c in FirstWord(line);
    assert first[0] == line[0];
  }

  lemma NotSkipped(line: string)
    requires !Skipped(line)
    ensures line != ""
  {
  }

  /** Printing a parsed job as one canonical line and parsing that line gives the same job. */
  lemma LineRoundTrip(raw: string, source: string, defaultOwner: string, system: bool, now: int)
    ensures var job := JobOf(raw, source, defaultOwner, system, now);
            job.Some? ==> JobOf(Line(job.value, system), source, defaultOwner, system, now) == job
  {
    hide TrimSpace, Fields, Join, JobOfFields, Skipped, ScheduleFields;
    if JobOf(raw, source, defaultOwner, system, now).Some? {
      LineIsItsFields(raw, source, defaultOwner, system, now);
      var line := TrimSpace(raw);
      NotSkipped(line);
      SameBeginning(line);
    }
  }

  lemma LinesLackNewline(raw: string, source: string, defaultOwner: string, system: bool, now: int)
    requires JobOf(raw, source, defaultOwner, system, now).Some?
    ensures Lacks(Line(JobOf(raw, source, defaultOwner, system, now).value, system), '\n')
  {
    LineIsItsFields(raw, source, defaultOwner, system, now);
    FieldsLackSpace(Fields(TrimSpace(raw)));
    JoinLacks(Fields(TrimSpace(raw)), '\n');
  }

  lemma {:induction false} JoinLacks(parts: seq<string>, c: char)
    requires c != ' ' && forall p :: p in parts ==> Lacks(p, c)
    ensures Lacks(Join(parts, " "), c)
  {
    if |parts| == 1 {
      assert parts[0] in parts;
    } else if |parts| > 1 {
      assert parts[0] in parts;
      JoinLacks(parts[1..], c);
    }
  }

  /** Where a job of a file comes from. */
  lemma {:induction false} JobHasLine(lines: seq<string>, source: string, defaultOwner: string, system: bool,
      now: int, i: nat)
    requires i < |JobsOf(lines, source, defaultOwner, system, now)|
    ensures var job := JobsOf(lines, source, defaultOwner, system, now)[i];
            exists raw :: raw in lines && JobOf(raw, source, defaultOwner, system, now) == Some(job)
  {
    hide JobOf;
    if lines != [] {
      var front, last := lines[..|lines| - 1], lines[|lines| - 1];
      if i < |JobsOf(front, source, defaultOwner, system, now)| {
        JobHasLine(front, source, defaultOwner, system, now, i);
        var raw :| raw in front
            && JobOf(raw, source, defaultOwner, system, now)
                == Some(JobsOf(front, source, defaultOwner, system, now)[i]);
        assert raw in lines;
      } else {
        assert last in lines;
      }
    }
  }

  lemma {:induction false} JobsOfLines(jobs: seq<Job>, source: string, defaultOwner: string, system: bool, now: int)
    requires forall job :: job in jobs ==> JobOf(Line(job, system), source, defaultOwner, system, now) == Some(job)
    ensures JobsOf(Lines(jobs, system), source, defaultOwner, system, now) == jobs
  {
    hide JobOf, Line;
    if jobs != [] {
      var front := jobs[..|jobs| - 1];
      assert jobs[|jobs| - 1] in jobs && forall job :: job in front ==> job in jobs;
      JobsOfLines(front, source, defaultOwner, system, now);
      assert Lines(jobs, system)[..|jobs| - 1] == Lines(front, system);
    }
  }

  lemma JoinNothing(parts: seq<string>)
    requires parts == []
    ensures Join(parts, "\n") == ""
  {
  }

  lemma EmptyLine(line: string, source: string, defaultOwner: string, system: bool, now: int)
    requires line == ""
    ensures JobOf(line, source, defaultOwner, system, now) == None
  {
    hide JobOfFields, Fields, TrimSpace, FirstWord;
    TrimmedStays(line);
  }

  lemma NothingInNothing(content: string, source: string, defaultOwner: string, system: bool, now: int)
    requires content == ""
    ensures FileJobs(content, source, defaultOwner, system, now) == []
  {
    hide JobOf;
    var lines := Split(content, '\n');
    assert lines == [content];
    EmptyLine(content, source, defaultOwner, system, now);
    hide Split;
    var front, last := lines[..|lines| - 1], lines[|lines| - 1];
    assert JobsOf(front, source, defaultOwner, system, now) == [] && last == content;
    assert JobsOf(lines, source, defaultOwner, system, now) == JobsOf(front, source, defaultOwner, system, now) + [];
  }

  /** A whole file: its jobs, printed one canonical line each and parsed again, are its jobs. */
  lemma FileRoundTrip(content: string, source: string, defaultOwner: string, system: bool, now: int)
    ensures var jobs := FileJobs(content, source, defaultOwner, system, now);
            FileJobs(Join(Lines(jobs, system), "\n"), source, defaultOwner, system, now) == jobs
  {
    hide JobOf, Line, Split, Join;
    var lines := Split(content, '\n');
    var jobs := JobsOf(lines, source, defaultOwner, system, now);
    hide JobsOf;
    forall job | job in jobs
      ensures JobOf(Line(job, system), source, defaultOwner, system, now) == Some(job) && Lacks(Line(job, system), '\n')
    {
      var i :| 0 <= i < |jobs| && jobs[i] == job;
      JobHasLine(lines, source, defaultOwner, system, now, i);
      var raw :| raw in lines && JobOf(raw, source, defaultOwner, system, now) == Some(job);
      LineRoundTrip(raw, source, defaultOwner, system, now);
      LinesLackNewline(raw, source, defaultOwner, system, now);
    }
    JobsOfLines(jobs, source, defaultOwner, system, now);
    if jobs == [] {
      assert Join(Lines(jobs, system), "\n") == "" by { JoinNothing(Lines(jobs, system)); }
      NothingInNothing(Join(Lines(jobs, system), "\n"), source, defaultOwner, system, now);
    } else {
      SplitJoin(Lines(jobs, system), '\n');
    }
  }

  // ----- ids -----

  /** What is hashed into a job's id. */
  function Preimage(source: string, owner: string, schedule: string, command: string): string {
    source + "\0" + owner + "\0" + schedule + "\0" + command
  }

  function JobPreimage(job: Job): string { Preimage(job.source, job.owner, job.schedule, job.command) }

  ghost predicate NulFree(job: Job) {
    Lacks(job.source, '\0') && Lacks(job.owner, '\0') && Lacks(job.schedule, '\0') && Lacks(job.command, '\0')
  }

  predicate SameParts(a: Job, b: Job) {
    a.source == b.source && a.owner == b.owner && a.schedule == b.schedule && a.command == b.command
  }

  lemma PreimageIsJoin(source: string, owner: string, schedule: string, command: string)
    ensures Preimage(source, owner, schedule, command) == Join([source, owner, schedule, command], "\0")
  {
    JoinMore(source, [owner, schedule, command]);
    JoinMore(owner, [schedule, command]);
    JoinMore(schedule, [command]);
    hide Join;
    assert source + "\0" + (owner + "\0" + (schedule + "\0" + command)) == Preimage(source, owner, schedule, command);
  }

  lemma JoinMore(first: string, rest: seq<string>)
    requires rest != []
    ensures Join([first] + rest, "\0") == first + "\0" + Join(rest, "\0")
    ensures |rest| == 1 ==> Join(rest, "\0") == rest[0]
  {
    assert ([first] + rest)[1..] == rest;
  }

  /** Without NULs in their parts two jobs have the same preimage exactly if the parts agree. */
  lemma PreimageInjective(a: Job, b: Job)
    requires NulFree(a) && NulFree(b)
    ensures JobPreimage(a) == JobPreimage(b) <==> SameParts(a, b)
  {
    hide Join, Split;
    PreimageIsJoin(a.source, a.owner, a.schedule, a.command);
    PreimageIsJoin(b.source, b.owner, b.schedule, b.command);
    SplitJoin([a.source, a.owner, a.schedule, a.command], '\0');
    SplitJoin([b.source, b.owner, b.schedule, b.command], '\0');
  }

  lemma {:induction false} SplitCount(a: string, b: string, c: char)
    ensures |Split(a + [c] + b, c)| == |Split(a, c)| + |Split(b, c)|
  {
    var s := a + [c] + b;
    if a == "" {
      assert s[1..] == b;
    } else {
      SplitCount(a[1..], b, c);
      assert s[1..] == a[1..] + [c] + b;
    }
  }

  lemma PreimageCount(job: Job)
    ensures |Split(JobPreimage(job), '\0')|
            == |Split(job.source, '\0')| + |Split(job.owner, '\0')| + |Split(job.schedule, '\0')|
                + |Split(job.command, '\0')|
  {
    hide Split;
    var rest := job.schedule + "\0" + job.command;
    SplitCount(job.source, job.owner + "\0" + rest, '\0');
    SplitCount(job.owner, rest, '\0');
    SplitCount(job.schedule, job.command, '\0');
    assert JobPreimage(job) == job.source + "\0" + (job.owner + "\0" + rest);
  }

  /** A NUL inside a part may as well stand between two parts. */
  lemma Shifted(source: string, owner: string, schedule: string, command: string, more: string)
    ensures Preimage(source + "\0" + owner, schedule, command, more)
            == Preimage(source, owner, schedule, command + "\0" + more)
    ensures Preimage(source, owner + "\0" + schedule, command, more)
            == Preimage(source, owner, schedule, command + "\0" + more)
    ensures Preimage(source, owner, schedule + "\0" + command, more)
            == Preimage(source, owner, schedule, command + "\0" + more)
  {
  }

  lemma CutAt(s: string) returns (a: string, b: string)
    requires '\0' in s
    ensures s == a + "\0" + b
  {
    var i :| 0 <= i < |s| && s[i] == '\0';
    a, b := s[..i], s[i + 1..];
  }

  /** Another job with the preimage of one that has a NUL. */
  lemma Confused(a: Job) returns (b: Job)
    requires !NulFree(a)
    ensures JobPreimage(a) == JobPreimage(b) && !SameParts(a, b)
  {
    hide Preimage;
    if '\0' in a.source {
      var x, y := CutAt(a.source);
      b := a.(source := x, owner := y, schedule := a.owner, command := a.schedule + "\0" + a.command);
      Shifted(x, y, a.owner, a.schedule, a.command);
    } else if '\0' in a.owner {
      var x, y := CutAt(a.owner);
      b := a.(owner := x, schedule := y, command := a.schedule + "\0" + a.command);
      Shifted(a.source, x, y, a.schedule, a.command);
    } else if '\0' in a.schedule {
      var x, y := CutAt(a.schedule);
      b := a.(source := a.source + "\0" + a.owner, owner := x, schedule := y);
      Shifted(a.source, a.owner, x, y, a.command);
    } else {
      var x, y := CutAt(a.command);
      b := a.(source := a.source + "\0" + a.owner, owner := a.schedule, schedule := x, command := y);
      Shifted(a.source, a.owner, a.schedule, x, y);
    }
  }

  /** A job's preimage is its own, whatever the other job contains, exactly if no part has a NUL. */
  lemma OwnPreimageExactly(a: Job)
    ensures NulFree(a) <==> forall b :: JobPreimage(a) == JobPreimage(b) ==> SameParts(a, b)
  {
    hide JobPreimage, Split;
    if NulFree(a) {
      forall b | JobPreimage(a) == JobPreimage(b) ensures SameParts(a, b) {
        PreimageCount(a);
        PreimageCount(b);
        SplitPiece(a.source, '\0');
        SplitPiece(a.owner, '\0');
        SplitPiece(a.schedule, '\0');
        SplitPiece(a.command, '\0');
        PreimageInjective(a, b);
      }
    } else {
      var b := Confused(a);
    }
  }

  /** A line of a system crontab that is three words, the first a name like `@daily`. */
  lemma ThreeWords(schedule: string, owner: string, command: string, source: string, defaultOwner: string, now: int)
    requires IsToken(schedule) && IsToken(owner) && IsToken(command) && schedule[0] == '@' && Lacks(schedule, '=')
    ensures JobOf(schedule + " " + owner + " " + command, source, defaultOwner, true, now)
            == Some(Job(source, owner, schedule, command, CronParser.NextRun(schedule, now)))
  {
    hide TrimSpace, Fields, Split, CronParser.NextRun, IsSpace;
    var words := [schedule, owner, command];
    var line := Join(words, " ");
    JoinAppend([schedule], [owner, command], " ");
    JoinAppend([owner], [command], " ");
    JoinOne(schedule);
    JoinOne(owner);
    JoinOne(command);
    assert [schedule] + [owner, command] == words && [owner] + [command] == [owner, command];
    assert line == schedule + " " + owner + " " + command;
    FieldsLackSpace(words);
    FieldsJoin(words);
    JoinTrimmed(words);
    TrimmedStays(line);
    SplitJoin(words, ' ');
    hide Join;
    assert words[..1] == [schedule] && words[2..] == [command];
  }

  /** Two different jobs of one system crontab that hash the same text. */
  lemma NulConfuses(source: string, defaultOwner: string, now: int)
    ensures var a := JobOf("@a o @b\0c", source, defaultOwner, true, now);
            var b := JobOf("@b o\0@a c", source, defaultOwner, true, now);
            a.Some? && b.Some? && !SameParts(a.value, b.value) && JobPreimage(a.value) == JobPreimage(b.value)
  {
    hide JobOf, Preimage, CronParser.NextRun;
    var a, b, c, o := "@a", "@b", "c", "o";
    ThreeWords(a, o, b + "\0" + c, source, defaultOwner, now);
    ThreeWords(b, o + "\0" + a, c, source, defaultOwner, now);
    Shifted(source, o, a, b, c);
    assert a + " " + o + " " + (b + "\0" + c) == "@a o @b\0c";
    assert b + " " + (o + "\0" + a) + " " + c == "@b o\0@a c";
  }

  /** The id under which the wrapper reports: the given one, the hash of a preimage, or none because
      the flags do not suffice. */
  datatype JobId = Given(id: string) | Hashed(preimage: string) | Unusable

  method WrapperId(externalId: string, source: string, owner: string, schedule: string, args: seq<string>)
    returns (r: JobId)
    ensures r == DerivedId(externalId, source, owner, schedule, args)
    ensures r.Given? <==> args != [] && TrimSpace(externalId) != ""
    ensures r.Given? ==> r.id == TrimSpace(externalId)
    ensures r.Unusable? <==>
            args == [] || (TrimSpace(externalId) == "" && (TrimSpace(source) == "" || TrimSpace(schedule) == ""))
  {
    if |args| == 0 { return Unusable; }
    var jobExternalId := TrimSpace(externalId);
    var commandText := Join(args, " ");
    if jobExternalId == "" {
      if TrimSpace(source) == "" || TrimSpace(schedule) == "" { return Unusable; }
      return Hashed(TrimSpace(source) + "\0" + TrimSpace(owner) + "\0" + TrimSpace(schedule) + "\0" + commandText);
    }
    return Given(jobExternalId);
  }

  function DerivedId(externalId: string, source: string, owner: string, schedule: string, args: seq<string>): JobId {
    if args == [] then Unusable
    else if TrimSpace(externalId) != "" then Given(TrimSpace(externalId))
    else if TrimSpace(source) == "" || TrimSpace(schedule) == "" then Unusable
    else Hashed(Preimage(TrimSpace(source), TrimSpace(owner), TrimSpace(schedule), Join(args, " ")))
  }

  lemma TrimAddsNothing(s: string)
    ensures forall c :: c in TrimSpace(s) ==> c in s
  {
    var left := TrimLeft(s);
    assert forall c :: c in left ==> c in s;
    assert TrimRight(left) <= left;
  }

  /** Called without an id but with a discovered job's own source, owner and schedule and the words
      of its command, the wrapper derives that job's id exactly if source and owner have no outer
      white space and the source is not blank. */
  lemma WrapperAgreesExactly(raw: string, source: string, defaultOwner: string, system: bool, now: int)
    ensures JobOf(raw, source, defaultOwner, system, now).Some?
            && NulFree(JobOf(raw, source, defaultOwner, system, now).value) ==>
            var job := JobOf(raw, source, defaultOwner, system, now).value;
            DerivedId("", job.source, job.owner, job.schedule, Fields(job.command)) == Hashed(JobPreimage(job))
            <==> TrimSpace(source) == source != "" && (!system ==> TrimSpace(defaultOwner) == defaultOwner)
  {
    hide Fields, Join, TrimSpace, Skipped, CronParser.NextRun;
    var found := JobOf(raw, source, defaultOwner, system, now);
    if found.Some? && NulFree(found.value) {
      var job := found.value;
      var fields := Fields(TrimSpace(raw));
      var n := ScheduleFields(TrimSpace(raw));
      var at := if system then n + 1 else n;
      assert job.schedule == Join(fields[..n], " ") && job.command == Join(fields[at..], " ");
      assert forall f :: f in fields[..n] || f in fields[at..] ==> f in fields;
      JoinTrimmed(fields[..n]);
      TrimmedStays(job.schedule);
      FieldsJoin(fields[at..]);
      if system {
        assert fields[n] in fields && fields[n][0] in fields[n] && fields[n][|fields[n]| - 1] in fields[n];
        TrimmedStays(job.owner);
      }
      TrimAddsNothing(job.source);
      TrimAddsNothing(job.owner);
      TrimmedStays("");
      var derived := Job(TrimSpace(source), TrimSpace(job.owner), job.schedule, job.command, None);
      PreimageInjective(derived, job);
      hide Preimage;
    }
  }
}
