/**
 * The class emitter of src/Builder.php: `build` turns a class description
 * into the text of a PHP file (banner, optional doc block, optional
 * namespace, signature with `extends` and `implements` clauses, properties,
 * methods with empty bodies, closing brace).
 *
 * The functions below state the text of each block; the methods follow the
 * PHP code's statements and loops and are proved to produce exactly that text.
 */
module Builder {
  import opened PhpValues
  import opened PhpStrings
  import Source

  /** The `visibility`, `static` and `type` entries shared by properties, methods and arguments. */
  datatype Modifiers = Modifiers(visibility: Option<string>, isStatic: Option<Value>, typ: Option<string>)

  /** An entry of a method's `arguments`; `default` is present even when its value is null. */
  datatype ArgumentSpec = ArgumentSpec(name: string, mods: Modifiers, default: Option<Value>)

  /** An entry of `properties`. */
  datatype PropertySpec = PropertySpec(name: string, mods: Modifiers, default: Option<Value>)

  /** An entry of `methods`; a missing `arguments` entry is the empty list. */
  datatype MethodSpec = MethodSpec(name: string, mods: Modifiers, arguments: seq<ArgumentSpec>, ret: Option<string>)

  /**
   * The array given to `build`. A missing `properties` or `methods` entry is
   * the empty list; `extends`, `implements` and `comments` stay optional
   * because an empty list there still emits text.
   */
  datatype ClassSpec = ClassSpec(
    kind: string,
    name: string,
    comments: Option<seq<string>>,
    namespace: Option<string>,
    uses: seq<(string, string)>,
    extendsNames: Option<seq<string>>,
    implementsNames: Option<seq<string>>,
    properties: seq<PropertySpec>,
    methods: seq<MethodSpec>)

  // ---------------------------------------------------------------------
  // Doc blocks

  /** `genComment($comments, $space)`: opening line, one ` * ` line per entry, closing line. */
  function CommentBlock(lines: seq<string>, space: nat): string
  {
    var s := Spaces(space);
    s + "/**\n" + Concat(Terminated(CommentBody(lines, s))) + s + " */"
  }

  function CommentBody(lines: seq<string>, s: string): seq<string>
  {
    seq(|lines|, i requires 0 <= i < |lines| => s + " * " + lines[i])
  }

  method GenComment(lines: seq<string>, space: nat) returns (r: string)
    ensures r == CommentBlock(lines, space)
  {
    var s := Spaces(space);
    var tx := s + "/**" + "\n";
    ghost var head := s + "/**\n";
    ghost var body := Terminated(CommentBody(lines, s));
    var i := 0;
    while i < |lines|
      invariant 0 <= i <= |lines|
      invariant tx == head + Concat(body[..i])
    {
      ConcatPrefix(body, i);
      var line := s + " * " + lines[i] + "\n";
      assert line == body[i];
      AppendAssoc(head, Concat(body[..i]), line);
      tx := tx + line;
      i := i + 1;
    }
    assert body[..|lines|] == body;
    r := tx + s + " */";
  }

  /** The block is its lines joined by newlines, with no newline after the last. */
  lemma CommentBlockLines(lines: seq<string>, space: nat)
    ensures CommentBlock(lines, space)
         == Join("\n", [Spaces(space) + "/**"] + CommentBody(lines, Spaces(space)) + [Spaces(space) + " */"])
  {
    var s := Spaces(space);
    var body := CommentBody(lines, s);
    var all := [s + "/**"] + body + [s + " */"];
    TerminatedJoin(body, s + " */");
    assert all[1..] == body + [s + " */"];
    assert Join("\n", all) == s + "/**" + "\n" + Join("\n", body + [s + " */"]);
  }

  // ---------------------------------------------------------------------
  // extends / implements

  /**
   * `$uses[$name] ?? $name` against the list being built: PHP reads a
   * decimal key string as an integer index into that list.
   */
  function Lookup(acc: seq<string>, name: string): (r: string)
    ensures !IsDecimalKey(name) ==> r == name
    ensures r == name || exists k :: 0 <= k < |acc| && name == NatToText(k) && r == acc[k]
  {
    if IsDecimalKey(name) && DecimalValue(name) < |acc| then
      DecimalKeyRoundTrip(name);
      acc[DecimalValue(name)]
    else name
  }

  /** The text of an index of the list reads that entry, as PHP's integer-string key cast does. */
  lemma LookupIndex(acc: seq<string>, k: nat)
    requires k < |acc|
    ensures Lookup(acc, NatToText(k)) == acc[k]
  {
    NatToTextRoundTrip(k);
  }

  /** The names after the lookup loop, in order. */
  function Resolved(names: seq<string>): (r: seq<string>)
    ensures |r| == |names|
  {
    if |names| == 0 then []
    else
      var acc := Resolved(names[..|names| - 1]);
      acc + [Lookup(acc, names[|names| - 1])]
  }

  /** The loop of src/Builder.php:42-45 (and :65-68). */
  method ResolveNames(names: seq<string>) returns (resolved: seq<string>)
    ensures resolved == Resolved(names)
  {
    resolved := [];
    var i := 0;
    while i < |names|
      invariant 0 <= i <= |names|
      invariant resolved == Resolved(names[..i])
    {
      assert names[..i + 1][..i] == names[..i];
      resolved := resolved + [Lookup(resolved, names[i])];
      i := i + 1;
    }
    assert names[..|names|] == names;
  }

  /** Names that are not decimal strings (every PHP class name) come out unchanged and in order. */
  lemma {:induction false} ResolvedIdentity(names: seq<string>)
    requires forall i :: 0 <= i < |names| ==> !IsDecimalKey(names[i])
    ensures Resolved(names) == names
  {
    if |names| > 0 {
      var init := names[..|names| - 1];
      ResolvedIdentity(init);
      assert names == init + [names[|names| - 1]];
    }
  }

  /** A decimal name picks up an earlier entry of the list instead. */
  lemma ResolvedDecimalName()
    ensures Resolved(["A", "0"]) == ["A", "A"]
  {
    assert ["A", "0"][..1] == ["A"];
    assert ["A"][..0] == [];
    assert "0"[..0] == "";
    assert IsDecimalKey("0") && DecimalValue("0") == 0;
    assert !IsDigit("A"[0]);
  }

  /** One name stays on the signature line; several start a new line indented by four spaces. */
  function Clause(keyword: string, names: seq<string>): string
  {
    (if |names| > 1 then "\n    " + keyword + " " else " " + keyword + " ")
    + Join(", ", Resolved(names))
  }

  method GenExtends(names: seq<string>, uses: seq<(string, string)>) returns (r: string)
    ensures r == Clause("extends", names)
  {
    var tx := "";
    if |names| > 1 {
      tx := tx + "\n";
      tx := tx + "    extends ";
    } else {
      tx := tx + " extends ";
    }
    var resolved := ResolveNames(names);
    r := tx + Join(", ", resolved);
  }

  method GenImplements(names: seq<string>, uses: seq<(string, string)>) returns (r: string)
    ensures r == Clause("implements", names)
  {
    var tx := "";
    if |names| > 1 {
      tx := tx + "\n";
      tx := tx + "    implements ";
    } else {
      tx := tx + " implements ";
    }
    var resolved := ResolveNames(names);
    r := tx + Join(", ", resolved);
  }

  /**
   * No name keeps the bare keyword; one name (any name: the list being built
   * is still empty) stays on the signature line; several names of classes
   * start a new line.
   */
  lemma ClauseLayout(keyword: string, names: seq<string>)
    ensures |names| == 0 ==> Clause(keyword, names) == " " + keyword + " "
    ensures |names| == 1 ==> Clause(keyword, names) == " " + keyword + " " + names[0]
    ensures |names| > 1 && (forall i :: 0 <= i < |names| ==> !IsDecimalKey(names[i]))
            ==> Clause(keyword, names) == "\n    " + keyword + " " + Join(", ", names)
  {
    if |names| == 1 {
      assert names[..0] == [];
    }
    if |names| > 1 && forall i :: 0 <= i < |names| ==> !IsDecimalKey(names[i]) {
      ResolvedIdentity(names);
    }
  }

  // ---------------------------------------------------------------------
  // Modifier prefix, return suffix, arguments

  predicate StaticSet(m: Modifiers)
  {
    m.isStatic.Some? && Truthy(m.isStatic.value)
  }

  /** A present word followed by one space. */
  function Word(w: Option<string>): string
  {
    match w
    case Some(x) => x + " "
    case None => ""
  }

  /** The visibility, `static` and the type, those present, each followed by one space. */
  function PrefixText(m: Modifiers): string
  {
    Word(m.visibility) + (if StaticSet(m) then "static " else "") + Word(m.typ)
  }

  /** `implementPrefix($attr)` */
  method ImplementPrefix(m: Modifiers) returns (r: string)
    ensures r == PrefixText(m)
    ensures r == "" <==> m.visibility.None? && !StaticSet(m) && m.typ.None?
  {
    var prefs: seq<string> := [];
    ghost var spaced := "";
    if m.visibility.Some? {
      prefs := prefs + [m.visibility.value];
      spaced := spaced + m.visibility.value + " ";
    }
    assert prefs != [] ==> Join(" ", prefs) + " " == spaced;
    if StaticSet(m) {
      if prefs != [] {
        JoinSnoc(" ", prefs, "static");
      }
      prefs := prefs + ["static"];
      spaced := spaced + "static ";
    }
    assert prefs != [] ==> Join(" ", prefs) + " " == spaced;
    if m.typ.Some? {
      if prefs != [] {
        JoinSnoc(" ", prefs, m.typ.value);
      }
      prefs := prefs + [m.typ.value];
      spaced := spaced + m.typ.value + " ";
    }
    assert prefs != [] ==> Join(" ", prefs) + " " == spaced;
    assert spaced == PrefixText(m);
    if |prefs| == 0 {
      return "";
    }
    r := Join(" ", prefs) + " ";
  }

  /** `implementSuffix($attr)` */
  function ImplementSuffix(ret: Option<string>): (r: string)
    ensures r == "" <==> ret.None?
    ensures ret.Some? ==> |r| == |ret.value| + 2 && r[..2] == ": " && r[2..] == ret.value
  {
    if ret.None? then "" else ": " + ret.value
  }

  /** One argument: its modifiers, `$name`, and ` = ` with the default rendered at indentation 0. */
  function ArgumentText(a: ArgumentSpec): string
  {
    PrefixText(a.mods) + "$" + a.name + DefaultText(a.default, 0)
  }

  /** ` = ` and the default rendered at `space`, when there is a default. */
  function DefaultText(default: Option<Value>, space: nat): string
  {
    match default
    case Some(d) => " = " + Source.Literal(d, space)
    case None => ""
  }

  function ArgumentTexts(args: seq<ArgumentSpec>): seq<string>
  {
    seq(|args|, i requires 0 <= i < |args| => ArgumentText(args[i]))
  }

  /** `implementArguments($args)`: the arguments in order, joined by `, `. */
  method ImplementArguments(args: seq<ArgumentSpec>) returns (r: string)
    ensures r == Join(", ", ArgumentTexts(args))
  {
    var attrs: seq<string> := [];
    var i := 0;
    while i < |args|
      invariant 0 <= i <= |args|
      invariant attrs == ArgumentTexts(args)[..i]
    {
      var a := args[i];
      var tx := ImplementPrefix(a.mods);
      tx := tx + "$" + a.name;
      if a.default.Some? {
        var d := Source.ToSource(a.default.value, 0);
        tx := tx + " = " + d;
      }
      assert tx == ArgumentText(a);
      assert ArgumentTexts(args)[..i + 1] == ArgumentTexts(args)[..i] + [tx];
      attrs := attrs + [tx];
      i := i + 1;
    }
    assert ArgumentTexts(args)[..|args|] == ArgumentTexts(args);
    r := Join(", ", attrs);
  }

  // ---------------------------------------------------------------------
  // Properties and methods

  /** One property: four spaces, modifiers, `$name`, ` = ` and the default at indentation 4, `;` and a blank line. */
  function PropertyText(p: PropertySpec): string
  {
    "    " + PrefixText(p.mods) + ("$" + p.name) + DefaultText(p.default, 4) + ";\n\n"
  }

  /** The properties in declaration order, each with its blank line. */
  function PropertiesText(props: seq<PropertySpec>): string
  {
    if |props| == 0 then ""
    else PropertiesText(props[..|props| - 1]) + PropertyText(props[|props| - 1])
  }

  /** The statements of one iteration of `genProperties`. */
  method GenProperty(p: PropertySpec) returns (line: string)
    ensures line == PropertyText(p)
  {
    line := "    ";
    var prefix := ImplementPrefix(p.mods);
    line := line + prefix;
    line := line + ("$" + p.name);
    if p.default.Some? {
      var d := Source.ToSource(p.default.value, 4);
      line := line + (" = " + d);
    }
    line := line + ";\n\n";
  }

  /** `genProperties($props, $uses)` */
  method GenProperties(props: seq<PropertySpec>, uses: seq<(string, string)>) returns (r: string)
    ensures r == PropertiesText(props)
  {
    var tx := "";
    var i := 0;
    while i < |props|
      invariant 0 <= i <= |props|
      invariant tx == PropertiesText(props[..i])
    {
      var line := GenProperty(props[i]);
      assert props[..i + 1][..i] == props[..i];
      tx := tx + line;
      i := i + 1;
    }
    assert props[..|props|] == props;
    r := tx;
  }

  /**
   * One method: the signature line (four spaces, modifiers, `function`, the
   * name, a space, the arguments in parentheses, the return suffix), then an
   * empty body `{` / `}` at four spaces, then a blank line.
   */
  function MethodText(m: MethodSpec): string
  {
    "    " + PrefixText(m.mods) + ("function " + m.name)
    + " (" + Join(", ", ArgumentTexts(m.arguments)) + ")" + ImplementSuffix(m.ret) + "\n"
    + "    {\n"
    + "    }\n\n"
  }

  /** The methods in declaration order, each with its blank line. */
  function MethodsText(methods: seq<MethodSpec>): string
  {
    if |methods| == 0 then ""
    else MethodsText(methods[..|methods| - 1]) + MethodText(methods[|methods| - 1])
  }

  /** One iteration of the loop of `genMethods`: the method's line and its empty body. */
  method GenMethod(m: MethodSpec) returns (line: string)
    ensures line == MethodText(m)
  {
    var s := "    ";
    line := s;
    var prefix := ImplementPrefix(m.mods);
    line := line + prefix;
    line := line + ("function " + m.name);
    line := line + " (";
    var args := ImplementArguments(m.arguments);
    line := line + args;
    line := line + ")";
    line := line + ImplementSuffix(m.ret);
    line := line + "\n";
    line := line + "    {\n";
    line := line + "    }\n\n";
  }

  lemma MethodsTextSnoc(methods: seq<MethodSpec>, i: nat)
    requires i < |methods|
    ensures MethodsText(methods[..i + 1]) == MethodsText(methods[..i]) + MethodText(methods[i])
  {
    assert methods[..i + 1][..i] == methods[..i];
  }

  /** `genMethods($methods, $uses)` */
  method GenMethods(methods: seq<MethodSpec>, uses: seq<(string, string)>) returns (r: string)
    ensures r == MethodsText(methods)
  {
    var tx := "";
    var i := 0;
    while i < |methods|
      invariant 0 <= i <= |methods|
      invariant tx == MethodsText(methods[..i])
    {
      var line := GenMethod(methods[i]);
      MethodsTextSnoc(methods, i);
      tx := tx + line;
      i := i + 1;
    }
    assert methods[..|methods|] == methods;
    r := tx;
  }

  // ---------------------------------------------------------------------
  // The file

  /** `parseUsesClasses($data)`: the alias list is always empty. */
  function ParseUsesClasses(spec: ClassSpec): (r: seq<(string, string)>)
    ensures |r| == 0
  {
    []
  }

  /** `type name`, then the `extends` clause, then the `implements` clause. */
  function Signature(spec: ClassSpec): string
  {
    spec.kind + " " + spec.name
    + (match spec.extendsNames case Some(e) => Clause("extends", e) case None => "")
    + (match spec.implementsNames case Some(i) => Clause("implements", i) case None => "")
  }

  /** A blank line and the file doc block, when `comments` is set. */
  function CommentSection(spec: ClassSpec): string
  {
    match spec.comments
    case Some(c) => "\n" + CommentBlock(c, 0) + "\n"
    case None => ""
  }

  /** A blank line and the namespace declaration, when `namespace` is set. */
  function NamespaceSection(spec: ClassSpec): string
  {
    match spec.namespace
    case Some(ns) => "\n" + ("namespace " + ns + ";") + "\n"
    case None => ""
  }

  /** The `<?php` line, then the doc block and the namespace sections. */
  function Opening(spec: ClassSpec): string
  {
    "<?php\n" + CommentSection(spec) + NamespaceSection(spec)
  }

  /** Everything up to and including the opening brace line. */
  function Header(spec: ClassSpec): string
  {
    Opening(spec) + ("\n" + Signature(spec)) + "\n{\n"
  }

  /** The properties, then the methods. */
  function Members(spec: ClassSpec): string
  {
    PropertiesText(spec.properties) + MethodsText(spec.methods)
  }

  /** The generated file: trailing newlines removed, then a newline and `}`. */
  function FileText(spec: ClassSpec): string
  {
    ChopNewlines(Header(spec) + Members(spec)) + "\n}"
  }

  /** The first statements of `build($data)`: the `<?php` line, the doc block, the namespace. */
  method GenOpening(spec: ClassSpec) returns (tx: string)
    ensures tx == Opening(spec)
  {
    tx := "<?php\n";
    if spec.comments.Some? {
      var c := GenComment(spec.comments.value, 0);
      tx := tx + ("\n" + c + "\n");
    }
    if spec.namespace.Some? {
      tx := tx + ("\n" + ("namespace " + spec.namespace.value + ";") + "\n");
    }
  }

  /** The signature statements of `build($data)`: type, name, `extends`, `implements`. */
  method GenSignature(spec: ClassSpec, uses: seq<(string, string)>) returns (signature: string)
    ensures signature == Signature(spec)
  {
    signature := spec.kind + " " + spec.name;
    if spec.extendsNames.Some? {
      var e := GenExtends(spec.extendsNames.value, uses);
      signature := signature + e;
    }
    if spec.implementsNames.Some? {
      var i := GenImplements(spec.implementsNames.value, uses);
      signature := signature + i;
    }
  }

  /** `build($data)` */
  method Build(spec: ClassSpec) returns (r: string)
    ensures r == FileText(spec)
  {
    var uses := ParseUsesClasses(spec);
    var tx := GenOpening(spec);
    var signature := GenSignature(spec, uses);
    tx := tx + ("\n" + signature);
    tx := tx + "\n{\n";
    var props := GenProperties(spec.properties, uses);
    var methods := GenMethods(spec.methods, uses);
    tx := tx + (props + methods);
    tx := ChopNewlines(tx);
    r := tx + "\n}";
  }

  // ---------------------------------------------------------------------
  // What the file looks like

  /** A default that is present but null is still written, as ` = null`. */
  lemma PropertyNullDefault(p: PropertySpec)
    requires p.default == Some(Null)
    ensures PropertyText(p) == "    " + PrefixText(p.mods) + ("$" + p.name) + " = null" + ";\n\n"
  {
  }

  /** Without a default the name is followed directly by the semicolon. */
  lemma PropertyNoDefault(p: PropertySpec)
    requires p.default.None?
    ensures PropertyText(p) == "    " + PrefixText(p.mods) + ("$" + p.name) + ";\n\n"
  {
    assert "    " + PrefixText(p.mods) + ("$" + p.name) + "" == "    " + PrefixText(p.mods) + ("$" + p.name);
  }

  /** Property texts start with their indentation, so they are empty only when there are none. */
  lemma {:induction false} PropertiesStart(props: seq<PropertySpec>)
    ensures PropertiesText(props) == "" <==> |props| == 0
    ensures |props| > 0 ==> PropertiesText(props)[0] == ' '
  {
    if |props| > 0 {
      var init := props[..|props| - 1];
      PropertiesStart(init);
      assert PropertyText(props[|props| - 1])[0] == ' ';
    }
  }

  /** Method texts start with their indentation, so they are empty only when there are none. */
  lemma {:induction false} MethodsStart(methods: seq<MethodSpec>)
    ensures MethodsText(methods) == "" <==> |methods| == 0
    ensures |methods| > 0 ==> MethodsText(methods)[0] == ' '
  {
    if |methods| > 0 {
      var init := methods[..|methods| - 1];
      MethodsStart(init);
      assert MethodText(methods[|methods| - 1])[0] == ' ';
    }
  }

  /** The class body is empty exactly when there are no members, and otherwise starts with a space. */
  lemma MembersStart(spec: ClassSpec)
    ensures Members(spec) == "" <==> |spec.properties| == 0 && |spec.methods| == 0
    ensures Members(spec) != "" ==> Members(spec)[0] == ' '
  {
    PropertiesStart(spec.properties);
    MethodsStart(spec.methods);
  }

  lemma HeaderShape(spec: ClassSpec)
    ensures var h := Header(spec); |h| >= 8 && h[..6] == "<?php\n" && h[|h| - 2] == '{' && h[|h| - 1] == '\n'
  {
    var core := Opening(spec) + ("\n" + Signature(spec));
    assert Header(spec) == core + "\n{\n";
    assert Opening(spec)[..6] == "<?php\n";
    assert core[..6] == "<?php\n";
  }

  /** Chopping a header that ends in `{` and a newline, followed by members that start with a space. */
  lemma ChopAfterHeader(h: string, m: string)
    requires |h| >= 8 && h[..6] == "<?php\n" && h[|h| - 2] == '{' && h[|h| - 1] == '\n'
    requires m != "" ==> m[0] == ' '
    ensures m == "" ==> ChopNewlines(h + m) + "\n}" == h + "}"
    ensures m != "" ==> ChopNewlines(h + m) + "\n}" == h + ChopNewlines(m) + "\n}"
    ensures var r := ChopNewlines(h + m) + "\n}";
      r[..6] == "<?php\n" && EndsWith(r, "\n}") && r[|r| - 3] != '\n'
  {
    var c := ChopNewlines(h + m);
    if m == "" {
      assert h + m == h;
      assert ChopNewlines(h) == h[..|h| - 1];
      assert h[..|h| - 1] + "\n}" == h + "}";
    } else {
      ChopAppend(h, m, 0);
    }
    assert (h + m)[|h| - 2] == '{';
    assert |c| >= |h| - 1;
    assert c[..6] == (h + m)[..6];
  }

  /**
   * The file starts with the `<?php` line and ends with a newline and `}`,
   * with no blank line before the brace: the header is kept whole, and of the
   * members only their trailing newlines are cut.
   */
  lemma BuildLayout(spec: ClassSpec)
    ensures Members(spec) == "" ==> FileText(spec) == Header(spec) + "}"
    ensures Members(spec) != "" ==> FileText(spec) == Header(spec) + ChopNewlines(Members(spec)) + "\n}"
    ensures FileText(spec)[..6] == "<?php\n"
    ensures EndsWith(FileText(spec), "\n}")
    ensures var r := FileText(spec); r[|r| - 3] != '\n'
  {
    HeaderShape(spec);
    MembersStart(spec);
    ChopAfterHeader(Header(spec), Members(spec));
  }

  /** Two trailing newlines after a non-newline are exactly what `chop` removes. */
  lemma ChopTwoNewlines(front: string, last: string)
    requires |last| >= 3 && last[|last| - 2..] == "\n\n" && last[|last| - 3] != '\n'
    ensures ChopNewlines(front + last) == front + last[..|last| - 2]
  {
    var t := front + last;
    assert t[|t| - 1] == '\n';
    var u := t[..|t| - 1];
    assert u[|u| - 1] == '\n';
    var w := u[..|u| - 1];
    assert w == front + last[..|last| - 2];
    assert w[|w| - 1] != '\n';
    assert ChopNewlines(w) == w;
  }

  lemma MethodTextEnds(m: MethodSpec)
    ensures EndsWith(MethodText(m), "    }" + "\n\n")
  {
  }

  lemma PropertyTextEnds(p: PropertySpec)
    ensures EndsWith(PropertyText(p), ";" + "\n\n")
  {
  }

  /** Chopping text whose last piece ends in `end` and two newlines leaves `end` last. */
  lemma ChopPieceEnding(front: string, last: string, end: string)
    requires |end| > 0 && end[|end| - 1] != '\n'
    requires EndsWith(last, end + "\n\n")
    ensures EndsWith(ChopNewlines(front + last), end)
  {
    assert last[|last| - 2..] == "\n\n" && last[|last| - 3] == end[|end| - 1];
    ChopTwoNewlines(front, last);
    var kept := last[..|last| - 2];
    assert kept[|kept| - |end|..] == end;
    EndsWithAppend(front, kept, end, "");
    assert front + kept + "" == front + kept;
  }

  /** A last method leaves its closing brace at the end of the chopped members. */
  lemma MembersEndWithMethod(spec: ClassSpec)
    requires |spec.methods| > 0
    ensures EndsWith(ChopNewlines(Members(spec)), "    }")
  {
    var ms := spec.methods;
    var last := MethodText(ms[|ms| - 1]);
    var front := PropertiesText(spec.properties) + MethodsText(ms[..|ms| - 1]);
    MethodTextEnds(ms[|ms| - 1]);
    assert MethodsText(ms) == MethodsText(ms[..|ms| - 1]) + last;
    AppendAssoc(PropertiesText(spec.properties), MethodsText(ms[..|ms| - 1]), last);
    ChopPieceEnding(front, last, "    }");
  }

  /** Without methods, a last property leaves its semicolon at the end of the chopped members. */
  lemma MembersEndWithProperty(spec: ClassSpec)
    requires |spec.methods| == 0 && |spec.properties| > 0
    ensures EndsWith(ChopNewlines(Members(spec)), ";")
  {
    var ps := spec.properties;
    var last := PropertyText(ps[|ps| - 1]);
    var front := PropertiesText(ps[..|ps| - 1]);
    PropertyTextEnds(ps[|ps| - 1]);
    assert MethodsText(spec.methods) == "";
    assert Members(spec) == PropertiesText(ps);
    assert PropertiesText(ps) == front + last;
    ChopPieceEnding(front, last, ";");
  }

  lemma EndingAfterMethod(spec: ClassSpec)
    requires |spec.methods| > 0
    ensures EndsWith(FileText(spec), "    }" + "\n}")
  {
    MembersStart(spec);
    BuildLayout(spec);
    var c := ChopNewlines(Members(spec));
    assert FileText(spec) == Header(spec) + c + "\n}";
    MembersEndWithMethod(spec);
    EndsWithAppend(Header(spec), c, "    }", "\n}");
  }

  lemma EndingAfterProperty(spec: ClassSpec)
    requires |spec.methods| == 0 && |spec.properties| > 0
    ensures EndsWith(FileText(spec), ";" + "\n}")
  {
    MembersStart(spec);
    BuildLayout(spec);
    var c := ChopNewlines(Members(spec));
    assert FileText(spec) == Header(spec) + c + "\n}";
    MembersEndWithProperty(spec);
    EndsWithAppend(Header(spec), c, ";", "\n}");
  }

  lemma EndingWithoutMembers(spec: ClassSpec)
    requires |spec.methods| == 0 && |spec.properties| == 0
    ensures EndsWith(FileText(spec), "{\n}")
  {
    BuildLayout(spec);
    MembersStart(spec);
    HeaderShape(spec);
    var h := Header(spec);
    assert h == h[..|h| - 2] + "{\n";
    assert FileText(spec) == h[..|h| - 2] + "{\n}";
  }

  /**
   * The last member decides how the file ends: the last method's closing
   * brace, or else the last property's semicolon, or else the class's
   * opening brace, each followed by a newline and `}`.
   */
  lemma BuildEnding(spec: ClassSpec)
    ensures |spec.methods| > 0 ==> EndsWith(FileText(spec), "    }" + "\n}")
    ensures |spec.methods| == 0 && |spec.properties| > 0 ==> EndsWith(FileText(spec), ";" + "\n}")
    ensures |spec.methods| == 0 && |spec.properties| == 0 ==> EndsWith(FileText(spec), "{\n}")
  {
    if |spec.methods| > 0 {
      EndingAfterMethod(spec);
    } else if |spec.properties| > 0 {
      EndingAfterProperty(spec);
    } else {
      EndingWithoutMembers(spec);
    }
  }

  /** The alias list never reaches the output. */
  lemma UsesIgnored(spec: ClassSpec, uses: seq<(string, string)>)
    ensures ParseUsesClasses(spec) == []
    ensures FileText(spec.(uses := uses)) == FileText(spec)
  {
  }

  /** A class `Foo` with one property `public $bar = 1`. */
  const FooClass := ClassSpec("class", "Foo", None, None, [], None, None,
                              [PropertySpec("bar", Modifiers(Some("public"), None, None), Some(Int(1)))], [])

  lemma FooHeader()
    ensures Header(FooClass) == "<?php\n" + "\n" + "class Foo" + "\n{\n"
  {
    assert Opening(FooClass) == "<?php\n";
    assert Signature(FooClass) == "class Foo";
  }

  lemma FooMembers()
    ensures Members(FooClass) == "    public $bar = 1;" + "\n\n"
  {
    var p := FooClass.properties[0];
    assert Source.Literal(Int(1), 4) == "1";
    assert PrefixText(p.mods) == "public ";
    assert PropertyText(p) == "    public $bar = 1;" + "\n\n";
    assert [p][..0] == [];
    assert PropertiesText([p]) == PropertiesText([]) + PropertyText(p);
  }

  lemma BuildExample()
    ensures FileText(FooClass) == "<?php\n" + "\n" + "class Foo" + "\n{\n" + "    public $bar = 1;" + "\n}"
  {
    var line := "    public $bar = 1;";
    FooHeader();
    FooMembers();
    ChopTwoNewlines("", line + "\n\n");
    assert "" + (line + "\n\n") == line + "\n\n";
    BuildLayout(FooClass);
  }

  /** Two parents go on a new line, indented, joined by a comma and a space. */
  lemma ExtendsExample()
    ensures Clause("extends", ["A", "B"]) == "\n    extends A, B"
  {
    assert !IsDigit("A"[0]) && !IsDigit("B"[0]);
    ClauseLayout("extends", ["A", "B"]);
    assert ["A", "B"][1..] == ["B"];
  }
}
