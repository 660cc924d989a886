/** The two nested layers of the MongoDB checksum: a mongosh script, handed to a shell as the quoted value
    of an assignment. */
module ChecksumScript {
  import opened Wrappers
  import opened JavaScript
  import Shell

  const ASSIGNMENT := "FIREDRILL_JS="
  const RUN_AND_HASH :=
    ";" + " out=$(mongosh --quiet --eval \"$FIREDRILL_JS\") || { echo \"$out\"; exit 1; }\n" +
    "if [ -z \"$out\" ]; then echo empty; else printf '%s' \"$out\" | md5sum | cut -d' ' -f1; fi"

  /** Fixed code that neither the scanner nor the shell stumbles over. */
  predicate InertText(code: string) {
    forall c <- code :: IsPlainCode(c) && c != Shell.NUL
  }

  type Text = code: string | InertText(code) witness ""

  const CALL_SIBLING: Text := "db.getSiblingDB("
  const CALL_AUTH: Text := ").auth(process.env."
  const USERNAME: Text := "MONGO_INITDB_ROOT_USERNAME, "
  const ENV: Text := "process.env."
  const PASSWORD: Text := "MONGO_INITDB_ROOT_PASSWORD);"
  const ASSIGN_DB: Text := "db = db.getSiblingDB("
  const END_CALL: Text := ");"
  const CALL_COLLECTION: Text := "db.getCollection("
  const CALL_FIND: Text := ").find({}, {_id: 0, "
  const END_ONE: Text := ": 1})"
  const CALL_SORT: Text := ".sort({"
  const CALL_FOR_EACH: Text := ".forEach(d => print(String(d["
  const END_FOR_EACH: Text := "])));"

  predicate Inert(t: Template) {
    PlainTemplate(t) && Shell.NUL !in CodeAround(t)
  }

  function Fix(code: Text, rest: Template): (t: Template)
    requires Inert(rest)
    ensures Inert(t) && Names(t) == Names(rest) && CodeAround(t) == code + CodeAround(rest)
  {
    Fixed(code, rest)
  }

  function Put(name: string, rest: Template): (t: Template)
    requires Inert(rest)
    ensures Inert(t) && Names(t) == [name] + Names(rest) && CodeAround(t) == CodeAround(rest)
  {
    Hole(name, rest)
  }

  /** Authenticates the session from the container's environment. */
  function Login(rest: Template): (t: Template)
    requires Inert(rest)
    ensures Inert(t) && Names(t) == ["admin"] + Names(rest)
  {
    Fix(CALL_SIBLING, Put("admin", Fix(CALL_AUTH, Fix(USERNAME, Fix(ENV, Fix(PASSWORD, rest))))))
  }

  function BindDatabase(database: string, rest: Template): (t: Template)
    requires Inert(rest)
    ensures Inert(t) && Names(t) == [database] + Names(rest)
  {
    Fix(ASSIGN_DB, Put(database, Fix(END_CALL, rest)))
  }

  /** Prints one field of every document of one collection, in sorted order. */
  function PrintField(collection: string, field: string): (t: Template)
    ensures Inert(t) && Names(t) == [collection, field, field, field]
  {
    Fix(CALL_COLLECTION, Put(collection, Fix(CALL_FIND, Put(field, Fix(END_ONE,
    Fix(CALL_SORT, Put(field, Fix(END_ONE, Fix(CALL_FOR_EACH, Put(field, Fix(END_FOR_EACH, Done)))))))))))
  }

  function ScriptTemplate(database: string, collection: string, field: string): Template {
    Login(BindDatabase(database, PrintField(collection, field)))
  }

  function Script(database: string, collection: string, field: string): string {
    Render(ScriptTemplate(database, collection, field))
  }

  /** The argument of `sh -c`. */
  function Command(database: string, collection: string, field: string): string {
    ASSIGNMENT + Shell.Quote(Script(database, collection, field)) + RUN_AND_HASH
  }

  /** Two layers over any script. The shell assigns exactly the script, unless a name holds a NUL, which no
      argument vector can carry; and the script's literals are exactly the names, always. */
  lemma BothLayers(t: Template, rest: string)
    requires Inert(t)
    requires rest != "" && Shell.EndsWord(rest[0])
    ensures Shell.ReadWord(ASSIGNMENT + Shell.Quote(Render(t)) + rest)
         == if exists name <- Names(t) :: Shell.NUL in name then None else Some((ASSIGNMENT + Render(t), rest))
    ensures Scan(Render(t)).Some?
    ensures Literals(Scan(Render(t)).value) == Names(t)
    ensures CodeOf(Scan(Render(t)).value) == CodeAround(t)
  {
    NamesStayNames(t);
    CharsOfTemplate(t, Shell.NUL);
    AssignmentIsPlain();
    Shell.ReadPrefixed(ASSIGNMENT, Render(t), rest);
  }

  lemma AssignmentIsPlain()
    ensures forall c <- ASSIGNMENT :: Shell.StandsForItself(c)
  {
  }

  lemma SameCode(database: string, collection: string, field: string)
    ensures CodeAround(ScriptTemplate(database, collection, field)) == CodeAround(ScriptTemplate("", "", ""))
  {
  }

  /** Every name reaches MongoDB as it was, in code that does not depend on it. */
  lemma NamesSurviveBothLayers(database: string, collection: string, field: string)
    ensures Shell.ReadWord(Command(database, collection, field))
         == if Shell.NUL in database || Shell.NUL in collection || Shell.NUL in field then None
            else Some((ASSIGNMENT + Script(database, collection, field), RUN_AND_HASH))
    ensures Scan(Script(database, collection, field)).Some?
    ensures var tokens := Scan(Script(database, collection, field)).value;
            && Literals(tokens) == ["admin", database, collection, field, field, field]
            && CodeOf(tokens) == CodeAround(ScriptTemplate("", "", ""))
  {
    var t := ScriptTemplate(database, collection, field);
    BothLayers(t, RUN_AND_HASH);
    SameCode(database, collection, field);
    NamesOfScript(database, collection, field);
  }

  lemma NamesOfScript(database: string, collection: string, field: string)
    ensures var names := Names(ScriptTemplate(database, collection, field));
            && names == ["admin", database, collection, field, field, field]
            && ((exists name <- names :: Shell.NUL in name) <==>
                  Shell.NUL in database || Shell.NUL in collection || Shell.NUL in field)
  {
    var names := Names(ScriptTemplate(database, collection, field));
    assert names == ["admin", database, collection, field, field, field];
    assert names[1] == database && names[2] == collection && names[3] == field;
  }

  /** Whatever the names, the code around them holds no quote of any kind, no slash, no backslash and no NUL: no
      comment, regular expression or template can begin in it. */
  lemma CodeIsPlain(t: Template)
    requires Inert(t)
    ensures forall c <- CodeAround(t) ::
      c != '"' && c != '\'' && c != '`' && c != '/' && c != '\\' && c != Shell.NUL
  {
    match t {
      case Done =>
      case Fixed(code, rest) => CodeIsPlain(rest);
      case Hole(name, rest) => CodeIsPlain(rest);
    }
  }
}
