/** The names and paths derived from an environment name and a template path
    (`init_variables`), and the output file name of `save_to_file`. */
module Naming {

  import opened Wrappers
  import opened PyStr

  /** The environment-specific values file. */
  function ValuesFile(env: string): string
  {
    "cf_vars/" + env + ".yml"
  }

  /** The template's basename: the text after the last '/'. */
  function TemplateFileName(t: string): string
  {
    LastSegment(t, '/')
  }

  /** The directory part, computed by deleting every occurrence of the
      basename from the template path. */
  function TemplatePath(t: string): string
  {
    RemoveAll(t, TemplateFileName(t))
  }

  /** The basename with every ".yaml" and then every ".yml" deleted. */
  function CleanName(fileName: string): string
  {
    RemoveAll(RemoveAll(fileName, ".yaml"), ".yml")
  }

  /** The parameter template that accompanies the template. */
  function JsonFile(t: string): string
  {
    TemplatePath(t) + CleanName(TemplateFileName(t)) + ".json"
  }

  function StackName(env: string, cleanName: string): string
  {
    "ct-" + env + "-base-" + cleanName + "-stack"
  }

  /** The file `save_to_file` writes. */
  function OutputFileName(name: string, extension: string): string
  {
    name + "." + extension
  }

  /** The dictionary `init_variables` returns. */
  datatype Init = Init(
    valuesFile: string,
    templateFileName: string,
    jsonFile: string,
    stackName: string,
    stackBody: string)

  /** `check_file` found no regular file at `path`. */
  datatype InitError = FileMissing(path: string)

  /** `init_variables(env, t)`, where `files` maps every path that is a
      regular file to its contents. The three files are checked in order
      and the first one missing ends the run. */
  function InitVariables(env: string, t: string, files: map<string, string>): (r: Result<Init, InitError>)
    ensures r.Ok? <==> ValuesFile(env) in files && t in files && JsonFile(t) in files
    ensures ValuesFile(env) !in files ==> r == Err(FileMissing(ValuesFile(env)))
    ensures ValuesFile(env) in files && t !in files ==> r == Err(FileMissing(t))
    ensures ValuesFile(env) in files && t in files && JsonFile(t) !in files ==> r == Err(FileMissing(JsonFile(t)))
    ensures r.Ok? ==> r.value.stackBody == files[t] && r.value.valuesFile == ValuesFile(env)
                      && r.value.jsonFile == JsonFile(t) && r.value.templateFileName == TemplateFileName(t)
                      && r.value.stackName == StackName(env, CleanName(TemplateFileName(t)))
  {
    var valuesFile := ValuesFile(env);
    if valuesFile !in files then Err(FileMissing(valuesFile))
    else if t !in files then Err(FileMissing(t))
    else
      var fileName := TemplateFileName(t);
      var jsonFile := JsonFile(t);
      if jsonFile !in files then Err(FileMissing(jsonFile))
      else Ok(Init(valuesFile, fileName, jsonFile, StackName(env, CleanName(fileName)), files[t]))
  }

  /** The basename never contains '/', and it is the whole path when the path
      has no '/'. */
  lemma TemplateFileNameIsLastSegment(t: string)
    ensures '/' !in TemplateFileName(t)
    ensures '/' !in t ==> TemplateFileName(t) == t
  {
    if '/' !in t {
      LastSegmentWithoutSeparator(t, '/');
    }
  }

  /** When the basename occurs in the path only as its last segment, the
      directory part and the basename put back together give the path, the
      directory part is empty or ends in '/', and the parameter template is
      looked for in that directory. */
  lemma PathSplit(t: string)
    requires var b := TemplateFileName(t);
             forall i :: 0 <= i < |t| - |b| ==> !OccursAt(t, b, i)
    ensures TemplatePath(t) == t[..|t| - |TemplateFileName(t)|]
    ensures TemplatePath(t) + TemplateFileName(t) == t
    ensures TemplatePath(t) == [] || TemplatePath(t)[|TemplatePath(t)| - 1] == '/'
    ensures JsonFile(t) == t[..|t| - |TemplateFileName(t)|] + CleanName(TemplateFileName(t)) + ".json"
  {
    var b := TemplateFileName(t);
    if b != [] {
      assert t[|t| - |b|..|t|] == b;
      RemoveAllOnlySuffix(t, b);
    }
    SplitAtLastSegment(t, '/');
  }

  /** Both "foo.yaml" and "foo.yml" give the clean name "foo", for any stem
      without a '.'. */
  lemma CleanNameStripsExtension(stem: string)
    requires '.' !in stem
    ensures CleanName(stem + ".yaml") == stem
    ensures CleanName(stem + ".yml") == stem
  {
    NoOccurrenceWithoutFirstChar(stem, ".yml");
    RemoveAllAbsent(stem, ".yml");

    var long := stem + ".yaml";
    NoOccurrenceInPrefix(stem, ".yaml", ".yaml");
    assert long[|stem|..] == ".yaml";
    RemoveAllOnlySuffix(long, ".yaml");
    assert long[..|stem|] == stem;

    var short := stem + ".yml";
    NoOccurrenceInPrefix(stem, ".yml", ".yaml");
    NoOccurrenceInPrefix(stem, ".yml", ".yml");
    forall i ensures !OccursAt(short, ".yaml", i) { }
    RemoveAllAbsent(short, ".yaml");
    assert short[|stem|..] == ".yml";
    RemoveAllOnlySuffix(short, ".yml");
    assert short[..|stem|] == stem;
  }

  /** For one environment, different clean names give different stack names. */
  lemma StackNameDeterminesCleanName(env: string, c1: string, c2: string)
    requires StackName(env, c1) == StackName(env, c2)
    ensures c1 == c2
  {
    var n := |"ct-" + env + "-base-"|;
    assert |c1| == |c2|;
    assert StackName(env, c1)[n..n + |c1|] == c1;
    assert StackName(env, c2)[n..n + |c2|] == c2;
  }

  /** For one clean name, different environments give different stack names. */
  lemma StackNameDeterminesEnvironment(e1: string, e2: string, clean: string)
    requires StackName(e1, clean) == StackName(e2, clean)
    ensures e1 == e2
  {
    assert |e1| == |e2|;
    assert StackName(e1, clean)[3..3 + |e1|] == e1;
    assert StackName(e2, clean)[3..3 + |e2|] == e2;
  }

  /** The pair (environment, clean name) is not recoverable from the stack
      name: two different pairs can share one stack. */
  lemma StackNameCollision()
    ensures StackName("a-base-b", "c") == StackName("a", "b-base-c")
  {
  }

  /** The fill output is the stack name followed by ".json". */
  lemma FillOutputName(stackName: string)
    ensures var f := OutputFileName(stackName, "json");
            |f| == |stackName| + 5 && f[..|stackName|] == stackName && f[|stackName|..] == ".json"
  {
  }

  /** The usual layout `dir/stem.yaml` (or `.yml`), where the stem has no
      '.' or '/' and the basename does not occur inside the directory name:
      the directory part is `dir/`, the clean name is the stem and the
      parameter template is `dir/stem.json`. */
  lemma {:induction false} StandardLayout(dir: string, stem: string, ext: string)
    requires ext == ".yaml" || ext == ".yml"
    requires '.' !in stem && '/' !in stem
    requires forall i :: !OccursAt(dir, stem + ext, i)
    ensures var t := dir + "/" + stem + ext;
            && TemplateFileName(t) == stem + ext
            && TemplatePath(t) == dir + "/"
            && CleanName(TemplateFileName(t)) == stem
            && JsonFile(t) == dir + "/" + stem + ".json"
  {
    var t := dir + "/" + stem + ext;
    var b := stem + ext;
    assert '/' !in ext;
    assert '/' !in b by {
      forall i | 0 <= i < |b| ensures b[i] != '/' {
        if i < |stem| { assert b[i] == stem[i] && stem[i] in stem; }
      }
    }
    assert t == dir + ['/'] + b;
    LastSegmentAfterSeparator(dir, b, '/');
    NoOccurrenceBeforeSeparator(dir, b, b, '/');
    PathSplit(t);
    assert t[..|t| - |b|] == dir + "/";
    CleanNameStripsExtension(stem);
  }

  /** The usual layout holds in particular when the stem's first character
      does not occur in the directory name. */
  lemma StandardLayoutFreshInitial(dir: string, stem: string, ext: string, t: string)
    requires ext == ".yaml" || ext == ".yml"
    requires stem != [] && '.' !in stem && '/' !in stem && stem[0] !in dir
    requires t == dir + "/" + stem + ext
    ensures TemplateFileName(t) == stem + ext
    ensures TemplatePath(t) == dir + "/"
    ensures CleanName(TemplateFileName(t)) == stem
    ensures JsonFile(t) == dir + "/" + stem + ".json"
  {
    assert (stem + ext)[0] == stem[0];
    NoOccurrenceWithoutFirstChar(dir, stem + ext);
    StandardLayout(dir, stem, ext);
  }

  /** Environment `prod` with template `templates/vpc.yaml`: values come from
      `cf_vars/prod.yml`, the parameter template is `templates/vpc.json` and
      the stack is `ct-prod-base-vpc-stack`. The template path is assembled
      from its parts. */
  lemma ProdVpcExample(env: string, dir: string, stem: string)
    requires env == "prod" && dir == "templates" && stem == "vpc"
    ensures var t := dir + "/" + stem + ".yaml";
            && ValuesFile(env) == "cf_vars/prod.yml"
            && JsonFile(t) == "templates/vpc.json"
            && StackName(env, CleanName(TemplateFileName(t))) == "ct-prod-base-vpc-stack"
            && OutputFileName(StackName(env, CleanName(TemplateFileName(t))), "json") == "ct-prod-base-vpc-stack.json"
  {
    StandardLayoutFreshInitial(dir, stem, ".yaml", dir + "/" + stem + ".yaml");
  }

  /** A stem whose letters also occur in the directory name keeps the usual
      layout: `templates/ec2.yaml` looks for `templates/ec2.json`. */
  lemma Ec2Example(dir: string, stem: string)
    requires dir == "templates" && stem == "ec2"
    ensures var t := dir + "/" + stem + ".yaml";
            && TemplatePath(t) == "templates/"
            && JsonFile(t) == "templates/ec2.json"
  {
    var ext := ".yaml";
    forall i ensures !OccursAt(dir, stem + ext, i) {
      if 0 <= i && i + |stem + ext| <= |dir| {
        assert i == 0 || i == 1;
        assert dir[i..i + 8][1] == dir[i + 1] && (stem + ext)[1] == 'c';
      }
    }
    StandardLayout(dir, stem, ext);
  }

  /** A basename without '/' that does not occur in `d` is stripped from
      `d/` + basename exactly once. */
  lemma {:induction false} RemoveBasenameAfterDirectory(d: string, b: string)
    requires '/' !in b && forall i :: !OccursAt(d, b, i)
    ensures RemoveAll(d + "/" + b, b) == d + "/"
  {
    assert !OccursAt(d, b, 0);
    var rest := d + "/" + b;
    assert rest == d + ['/'] + b;
    NoOccurrenceBeforeSeparator(d, b, b, '/');
    assert rest[|d| + 1..] == b;
    RemoveAllOnlySuffix(rest, b);
    assert rest[..|d| + 1] == d + "/";
  }

  /** `replace` on `b` + `d/` + `b`, when `b` has no '/' and does not occur
      in `d`, deletes both occurrences of `b`. */
  lemma RemoveBasenameTwice(b: string, d: string)
    requires '/' !in b && forall i :: !OccursAt(d, b, i)
    ensures RemoveAll(b + d + "/" + b, b) == d + "/"
  {
    assert !OccursAt(d, b, 0);
    assert b + d + "/" + b == b + (d + "/" + b);
    RemoveAllLeading(b, d + "/" + b);
    RemoveBasenameAfterDirectory(d, b);
  }

  /** The directory part is not a prefix strip: when the directory name
      starts with the basename (and the basename occurs nowhere else), that
      occurrence is deleted too, and the parameter template is looked for in
      the wrong place. */
  lemma {:induction false} DirectoryStartingWithBasename(b: string, d: string)
    requires '/' !in b && forall i :: !OccursAt(d, b, i)
    ensures var t := b + d + "/" + b;
            && TemplateFileName(t) == b
            && TemplatePath(t) == d + "/"
            && TemplatePath(t) != t[..|t| - |b|]
  {
    var t := b + d + "/" + b;
    assert t == (b + d) + ['/'] + b;
    LastSegmentAfterSeparator(b + d, b, '/');
    RemoveBasenameTwice(b, d);
    assert !OccursAt(d, b, 0);
    assert |t[..|t| - |b|]| == |b| + |d| + 1;
  }

  /** `vpc.yaml.d/vpc.yaml` (the basename `vpc.yaml` in front of the
      directory `.d`) looks for its parameter template at `.d/vpc.json`. */
  lemma DirectoryStartingWithBasenameExample(b: string, d: string)
    requires b == "vpc.yaml" && d == ".d"
    ensures var t := b + d + "/" + b;
            && TemplatePath(t) == ".d/"
            && JsonFile(t) == ".d/vpc.json"
  {
    assert b[0] == 'v' && 'v' !in d && '/' !in b;
    NoOccurrenceWithoutFirstChar(d, b);
    DirectoryStartingWithBasename(b, d);
    assert CleanName(b) == "vpc" by {
      assert b == "vpc" + ".yaml";
      CleanNameStripsExtension("vpc");
    }
  }

}
