/** The security validator for user-uploaded objective code.

    The validator parses the code and walks every node of the syntax tree,
    applying one rule after another; each rule appends its messages to the
    validator's `errors` or `warnings`.  Python's parser is outside the model:
    `parse` stands for `ast.parse`, and the node sequence it yields stands for
    what `ast.walk` visits, in that order, with each node reduced to the fields
    the rules read. */
module CodeValidator {
  import opened Base
  import opened PyValues

  // ------------------------------------------------------------ syntax nodes

  /** What a call calls: a plain name, an attribute `obj.attr`, or any other
      expression (a subscript, a call result, ...). */
  datatype Callee = NameCallee(id: string) | AttributeCallee(attr: string) | OtherCallee

  /** The type an `except` clause names: none (a bare `except:`), a plain
      name, or any other expression (a tuple, an attribute). */
  datatype HandlerType = NoType | NameType(id: string) | OtherType

  /** The four comprehension forms of Python's syntax tree. */
  datatype ComprehensionKind = ListComp | DictComp | SetComp | GeneratorExp

  /** The iterable of one `for` clause of a comprehension. */
  datatype Iterable = CallIterable(func: Callee) | OtherIterable

  /** One node of the walk.  `Import` keeps the dotted name of each alias,
      `ImportFrom` the module (none for `from . import x`), `FunctionDef` the
      number of plain positional parameters (`len(node.args.args)`). */
  datatype Node =
    | Import(names: seq<string>)
    | ImportFrom(origin: Option<string>)
    | Call(func: Callee)
    | Attribute(attr: string)
    | With
    | Try(handlers: seq<HandlerType>)
    | Lambda
    | Comprehension(kind: ComprehensionKind, iterables: seq<Iterable>)
    | FunctionDef(name: string, argCount: nat)
    | Other

  /** What `ast.parse` does with the code: a tree, a `SyntaxError` with its
      message and line, or any other exception, by its text. */
  datatype ParseOutcome =
    | Parsed(nodes: seq<Node>)
    | BadSyntax(msg: string, lineno: nat)
    | ParseFailed(reason: string)

  // --------------------------------------------------------------- the lists

  const ForbiddenBuiltins: set<string> := {
    "eval", "exec", "compile", "__import__",
    "open", "input", "raw_input",
    "file", "execfile", "reload",
    "breakpoint", "memoryview", "bytearray"
  }

  const AllowedImports: set<string> := {"math", "numpy", "np"}

  const ForbiddenModules: set<string> := {
    "os", "sys", "subprocess", "socket", "urllib", "urllib2", "urllib3",
    "http", "httplib", "ftplib", "telnetlib", "smtplib",
    "pickle", "shelve", "marshal", "imp", "importlib",
    "ctypes", "cffi", "pty", "tty", "termios",
    "multiprocessing", "threading", "asyncio",
    "requests", "flask", "django", "tornado",
    "__builtin__", "__builtins__", "builtins"
  }

  const ForbiddenAttributes: set<string> := {
    "__code__", "__globals__", "__dict__", "__class__",
    "__bases__", "__subclasses__", "__mro__", "__loader__",
    "__spec__", "__path__", "__file__", "__name__",
    "__builtins__", "__import__"
  }

  const FitnessName := "fitness"
  const ImportErrorName := "ImportError"

  // ------------------------------------------------------------ the messages

  const EmptyCodeMessage := "Code cannot be empty"
  const SyntaxErrorHead := "Syntax error: "
  const AtLine := " at line "
  const ParseFailureHead := "Failed to parse code: "
  const ForbiddenImportHead := "Forbidden import: '"
  const ImportHead := "Import '"
  const ForbiddenImportFromHead := "Forbidden import from '"
  const ImportFromHead := "Import from '"
  const AllowedTail := "'. Only 'math' and 'numpy' are allowed."
  const PermittedTail := "' not allowed. Only 'math' and 'numpy' are permitted."
  const CallHead := "Forbidden function call: '"
  const CallTail := "()'. This function is not allowed for security reasons."
  const AttributeHead := "Forbidden attribute access: '"
  const AttributeTail := "'. Special attributes are not allowed."
  const WithMessage := "File operations (with statement) are not allowed."
  const ImportErrorWarning := "Import error handling detected - may be attempting environment detection"
  const LambdaWarning := "Lambda functions detected - ensure they don't contain malicious code"
  const ComprehensionHead := "Forbidden function in comprehension: "
  const ArityMessage := "Fitness function must accept exactly one parameter (e.g., 'def fitness(x):')."
  const MissingFitnessMessage := "No 'fitness' function found. Your code must define a function named 'fitness'."
  const Separator := " | "

  // ---------------------------------------------------------------- strings

  /** `c.isspace()` */
  predicate IsSpace(c: char) {
    || c == ' ' || '\t' <= c <= '\r' || '\U{1c}' <= c <= '\U{1f}'
    || c == '\U{85}' || c == '\U{a0}' || c == '\U{1680}' || '\U{2000}' <= c <= '\U{200a}'
    || c == '\U{2028}' || c == '\U{2029}' || c == '\U{202f}' || c == '\U{205f}' || c == '\U{3000}'
  }

  /** `not code.strip()`: nothing but whitespace. */
  predicate Blank(code: string) {
    forall i :: 0 <= i < |code| ==> IsSpace(code[i])
  }

  /** `s.split('.')[0]`: the longest prefix without a dot. */
  function FirstComponent(s: string): (r: string)
    ensures r <= s && '.' !in r
    ensures |r| < |s| ==> s[|r|] == '.'
  {
    if s == [] || s[0] == '.' then [] else [s[0]] + FirstComponent(s[1..])
  }

  // ---------------------------------------------------------------- the rules

  /** The error of one `import` alias: forbidden, not allowed, or none. */
  function AliasError(name: string): Option<string> {
    var first := FirstComponent(name);
    if first in ForbiddenModules then Some(ForbiddenImportHead + name + AllowedTail)
    else if first !in AllowedImports then Some(ImportHead + name + PermittedTail)
    else None
  }

  /** The errors of the aliases of one `import`, in order. */
  function AliasErrors(names: seq<string>): (r: seq<string>)
    ensures |r| <= |names|
  {
    if names == [] then []
    else
      var last := AliasError(names[|names| - 1]);
      AliasErrors(names[..|names| - 1]) + (if last.Some? then [last.value] else [])
  }

  /** The error of one `from M import ...`: its module's first component
      decides as for an alias; with no module there is nothing to check. */
  function ImportFromError(origin: Option<string>): Option<string> {
    var first := if origin.Some? && origin.value != "" then FirstComponent(origin.value) else "";
    if first in ForbiddenModules then Some(ForbiddenImportFromHead + origin.value + AllowedTail)
    else if first != "" && first !in AllowedImports then Some(ImportFromHead + origin.value + PermittedTail)
    else None
  }

  /** What `_check_imports` reports for one node. */
  function ImportErrorsAt(node: Node): seq<string> {
    match node
    case Import(names) => AliasErrors(names)
    case ImportFrom(origin) => var e := ImportFromError(origin); if e.Some? then [e.value] else []
    case _ => []
  }

  /** The name `_check_function_calls` reads off a callee, if any. */
  function CalleeName(func: Callee): Option<string> {
    match func
    case NameCallee(id) => Some(id)
    case AttributeCallee(attr) => Some(attr)
    case OtherCallee => None
  }

  /** What `_check_function_calls` reports for one node. */
  function CallErrorsAt(node: Node): seq<string> {
    if node.Call? && CalleeName(node.func).Some? && CalleeName(node.func).value in ForbiddenBuiltins
    then [CallHead + CalleeName(node.func).value + CallTail]
    else []
  }

  /** What `_check_attribute_access` reports for one node. */
  function AttributeErrorsAt(node: Node): seq<string> {
    if node.Attribute? && node.attr in ForbiddenAttributes then [AttributeHead + node.attr + AttributeTail] else []
  }

  /** A comprehension iterable that calls a forbidden builtin by name. */
  predicate ForbiddenIterable(it: Iterable) {
    it.CallIterable? && it.func.NameCallee? && it.func.id in ForbiddenBuiltins
  }

  /** The errors of the `for` clauses of one comprehension, in order. */
  function IterableErrors(iterables: seq<Iterable>): (r: seq<string>)
    ensures |r| <= |iterables|
  {
    if iterables == [] then []
    else
      var last := iterables[|iterables| - 1];
      IterableErrors(iterables[..|iterables| - 1])
        + (if ForbiddenIterable(last) then [ComprehensionHead + last.func.id] else [])
  }

  /** What `_check_forbidden_operations` reports as errors for one node: every
      `with`, and the forbidden iterables of list, dict and set comprehensions
      (generator expressions are not inspected). */
  function OperationErrorsAt(node: Node): seq<string> {
    match node
    case With => [WithMessage]
    case Comprehension(kind, iterables) => if kind == GeneratorExp then [] else IterableErrors(iterables)
    case _ => []
  }

  /** The warnings of the handlers of one `try`: one per `except ImportError`. */
  function HandlerWarnings(handlers: seq<HandlerType>): (r: seq<string>)
    ensures |r| <= |handlers|
  {
    if handlers == [] then []
    else
      HandlerWarnings(handlers[..|handlers| - 1])
        + (if handlers[|handlers| - 1] == NameType(ImportErrorName) then [ImportErrorWarning] else [])
  }

  /** What `_check_forbidden_operations` reports as warnings for one node. */
  function OperationWarningsAt(node: Node): seq<string> {
    match node
    case Try(handlers) => HandlerWarnings(handlers)
    case Lambda => [LambdaWarning]
    case _ => []
  }

  /** A definition of the objective. */
  predicate DefinesFitnessAt(node: Node) {
    node.FunctionDef? && node.name == FitnessName
  }

  /** What `_check_fitness_function` reports for one node: a `fitness` that
      does not take exactly one positional parameter. */
  function SignatureErrorsAt(node: Node): seq<string> {
    if DefinesFitnessAt(node) && node.argCount != 1 then [ArityMessage] else []
  }

  /** The messages a rule reports over a walk, in walk order. */
  function Collected(nodes: seq<Node>, rule: Node -> seq<string>): seq<string> {
    if nodes == [] then [] else Collected(nodes[..|nodes| - 1], rule) + rule(nodes[|nodes| - 1])
  }

  /** Some node of the walk defines `fitness`. */
  predicate DefinesFitness(nodes: seq<Node>) {
    exists i :: 0 <= i < |nodes| && DefinesFitnessAt(nodes[i])
  }

  /** Everything `_check_fitness_function` reports: the signature errors, then
      the missing definition. */
  function FitnessErrors(nodes: seq<Node>): seq<string> {
    Collected(nodes, SignatureErrorsAt) + (if DefinesFitness(nodes) then [] else [MissingFitnessMessage])
  }

  /** All errors of a walk, rule after rule, as `validate` runs the rules. */
  function AllErrors(nodes: seq<Node>): seq<string> {
    Collected(nodes, ImportErrorsAt) + Collected(nodes, CallErrorsAt) + Collected(nodes, AttributeErrorsAt)
      + Collected(nodes, OperationErrorsAt) + FitnessErrors(nodes)
  }

  /** All warnings of a walk. */
  function AllWarnings(nodes: seq<Node>): seq<string> {
    Collected(nodes, OperationWarningsAt)
  }

  /** The pair `validate(code)` returns, given what the parser makes of it. */
  function Verdict(code: string, parsed: ParseOutcome): (bool, string) {
    if Blank(code) then (false, EmptyCodeMessage)
    else match parsed
      case BadSyntax(msg, lineno) => (false, SyntaxErrorHead + msg + AtLine + NatToString(lineno))
      case ParseFailed(reason) => (false, ParseFailureHead + reason)
      case Parsed(nodes) =>
        var errors := AllErrors(nodes);
        if errors == [] then (true, "") else (false, Join(errors, Separator))
  }

  // ---------------------------------------------------------- the validator

  class SecurityValidator {
    var errors: seq<string>
    var warnings: seq<string>

    /** `SecurityValidator()`: no errors, no warnings. */
    constructor()
      ensures errors == [] && warnings == []
    {
      errors := [];
      warnings := [];
    }

    /** `_check_imports(tree)` */
    method CheckImports(nodes: seq<Node>)
      modifies this
      ensures errors == old(errors) + Collected(nodes, ImportErrorsAt)
      ensures warnings == old(warnings)
    {
      ghost var start := errors;
      var k := 0;
      while k < |nodes|
        invariant 0 <= k <= |nodes|
        invariant errors == start + Collected(nodes[..k], ImportErrorsAt)
        invariant warnings == old(warnings)
      {
        CollectedStep(nodes, k, ImportErrorsAt);
        var node := nodes[k];
        if node.Import? {
          CheckAliases(node.names);
        } else if node.ImportFrom? {
          CheckImportFrom(node.origin);
        }
        Reassociate(start, Collected(nodes[..k], ImportErrorsAt), ImportErrorsAt(node));
        k := k + 1;
      }
      assert nodes[..k] == nodes;
    }

    /** The branch of `_check_imports` for one `from M import ...`. */
    method CheckImportFrom(origin: Option<string>)
      modifies this
      ensures errors == old(errors) + ImportErrorsAt(ImportFrom(origin))
      ensures warnings == old(warnings)
    {
      var moduleName := if origin.Some? && origin.value != "" then FirstComponent(origin.value) else "";
      if moduleName in ForbiddenModules {
        errors := errors + [ForbiddenImportFromHead + origin.value + AllowedTail];
      } else if moduleName != "" && moduleName !in AllowedImports {
        errors := errors + [ImportFromHead + origin.value + PermittedTail];
      }
    }

    /** The inner loop of `_check_imports`, over the aliases of one `import`. */
    method CheckAliases(names: seq<string>)
      modifies this
      ensures errors == old(errors) + AliasErrors(names)
      ensures warnings == old(warnings)
    {
      var j := 0;
      while j < |names|
        invariant 0 <= j <= |names|
        invariant errors == old(errors) + AliasErrors(names[..j])
        invariant warnings == old(warnings)
      {
        assert names[..j + 1][..j] == names[..j];
        var moduleName := FirstComponent(names[j]);
        if moduleName in ForbiddenModules {
          errors := errors + [ForbiddenImportHead + names[j] + AllowedTail];
        } else if moduleName !in AllowedImports {
          errors := errors + [ImportHead + names[j] + PermittedTail];
        }
        j := j + 1;
      }
      assert names[..j] == names;
    }

    /** `_check_function_calls(tree)` */
    method CheckFunctionCalls(nodes: seq<Node>)
      modifies this
      ensures errors == old(errors) + Collected(nodes, CallErrorsAt)
      ensures warnings == old(warnings)
    {
      var k := 0;
      while k < |nodes|
        invariant 0 <= k <= |nodes|
        invariant errors == old(errors) + Collected(nodes[..k], CallErrorsAt)
        invariant warnings == old(warnings)
      {
        assert nodes[..k + 1][..k] == nodes[..k];
        var node := nodes[k];
        if node.Call? {
          var funcName: Option<string> := None;
          if node.func.NameCallee? {
            funcName := Some(node.func.id);
          } else if node.func.AttributeCallee? {
            funcName := Some(node.func.attr);
          }
          if funcName.Some? && funcName.value in ForbiddenBuiltins {
            errors := errors + [CallHead + funcName.value + CallTail];
          }
        }
        k := k + 1;
      }
      assert nodes[..k] == nodes;
    }

    /** `_check_attribute_access(tree)` */
    method CheckAttributeAccess(nodes: seq<Node>)
      modifies this
      ensures errors == old(errors) + Collected(nodes, AttributeErrorsAt)
      ensures warnings == old(warnings)
    {
      var k := 0;
      while k < |nodes|
        invariant 0 <= k <= |nodes|
        invariant errors == old(errors) + Collected(nodes[..k], AttributeErrorsAt)
        invariant warnings == old(warnings)
      {
        assert nodes[..k + 1][..k] == nodes[..k];
        var node := nodes[k];
        if node.Attribute? && node.attr in ForbiddenAttributes {
          errors := errors + [AttributeHead + node.attr + AttributeTail];
        }
        k := k + 1;
      }
      assert nodes[..k] == nodes;
    }

    /** `_check_forbidden_operations(tree)` */
    method CheckForbiddenOperations(nodes: seq<Node>)
      modifies this
      ensures errors == old(errors) + Collected(nodes, OperationErrorsAt)
      ensures warnings == old(warnings) + Collected(nodes, OperationWarningsAt)
    {
      var k := 0;
      while k < |nodes|
        invariant 0 <= k <= |nodes|
        invariant errors == old(errors) + Collected(nodes[..k], OperationErrorsAt)
        invariant warnings == old(warnings) + Collected(nodes[..k], OperationWarningsAt)
      {
        CollectedStep(nodes, k, OperationErrorsAt);
        CollectedStep(nodes, k, OperationWarningsAt);
        var node := nodes[k];
        if node.With? {
          errors := errors + [WithMessage];
        }
        if node.Try? {
          CheckHandlers(node.handlers);
        }
        if node.Lambda? {
          warnings := warnings + [LambdaWarning];
        }
        if node.Comprehension? && node.kind != GeneratorExp {
          CheckIterables(node.iterables);
        }
        Reassociate(old(errors), Collected(nodes[..k], OperationErrorsAt), OperationErrorsAt(node));
        Reassociate(old(warnings), Collected(nodes[..k], OperationWarningsAt), OperationWarningsAt(node));
        k := k + 1;
      }
      assert nodes[..k] == nodes;
    }

    /** The loop of `_check_forbidden_operations` over the handlers of a `try`. */
    method CheckHandlers(handlers: seq<HandlerType>)
      modifies this
      ensures errors == old(errors)
      ensures warnings == old(warnings) + HandlerWarnings(handlers)
    {
      var j := 0;
      while j < |handlers|
        invariant 0 <= j <= |handlers|
        invariant errors == old(errors)
        invariant warnings == old(warnings) + HandlerWarnings(handlers[..j])
      {
        assert handlers[..j + 1][..j] == handlers[..j];
        var handler := handlers[j];
        if handler.NameType? && handler.id == ImportErrorName {
          warnings := warnings + [ImportErrorWarning];
        }
        j := j + 1;
      }
      assert handlers[..j] == handlers;
    }

    /** The loop of `_check_forbidden_operations` over the `for` clauses of a
        comprehension. */
    method CheckIterables(iterables: seq<Iterable>)
      modifies this
      ensures errors == old(errors) + IterableErrors(iterables)
      ensures warnings == old(warnings)
    {
      var j := 0;
      while j < |iterables|
        invariant 0 <= j <= |iterables|
        invariant errors == old(errors) + IterableErrors(iterables[..j])
        invariant warnings == old(warnings)
      {
        assert iterables[..j + 1][..j] == iterables[..j];
        var it := iterables[j];
        if it.CallIterable? && it.func.NameCallee? && it.func.id in ForbiddenBuiltins {
          errors := errors + [ComprehensionHead + it.func.id];
        }
        j := j + 1;
      }
      assert iterables[..j] == iterables;
    }

    /** `_check_fitness_function(tree)` */
    method CheckFitnessFunction(nodes: seq<Node>)
      modifies this
      ensures errors == old(errors) + FitnessErrors(nodes)
      ensures warnings == old(warnings)
    {
      var fitnessFound := false;
      var k := 0;
      while k < |nodes|
        invariant 0 <= k <= |nodes|
        invariant errors == old(errors) + Collected(nodes[..k], SignatureErrorsAt)
        invariant warnings == old(warnings)
        invariant fitnessFound <==> DefinesFitness(nodes[..k])
      {
        assert nodes[..k + 1][..k] == nodes[..k];
        var node := nodes[k];
        if node.FunctionDef? && node.name == FitnessName {
          fitnessFound := true;
          if node.argCount != 1 {
            errors := errors + [ArityMessage];
          }
        }
        assert DefinesFitness(nodes[..k + 1]) <==> DefinesFitness(nodes[..k]) || DefinesFitnessAt(nodes[k]) by {
          assert forall i :: 0 <= i < k ==> nodes[..k + 1][i] == nodes[..k][i];
          assert nodes[..k + 1][k] == nodes[k];
        }
        k := k + 1;
      }
      assert nodes[..k] == nodes;
      if !fitnessFound {
        errors := errors + [MissingFitnessMessage];
      }
    }

    /** The five rules of `validate`, in order, from empty lists. */
    method RunChecks(nodes: seq<Node>)
      requires errors == [] && warnings == []
      modifies this
      ensures errors == AllErrors(nodes) && warnings == AllWarnings(nodes)
    {
      CheckImports(nodes);
      ghost var e1 := errors;
      assert e1 == Collected(nodes, ImportErrorsAt);
      CheckFunctionCalls(nodes);
      ghost var e2 := errors;
      CheckAttributeAccess(nodes);
      ghost var e3 := errors;
      CheckForbiddenOperations(nodes);
      ghost var e4 := errors;
      assert warnings == Collected(nodes, OperationWarningsAt);
      CheckFitnessFunction(nodes);
      assert e2 == e1 + Collected(nodes, CallErrorsAt);
      assert e3 == e2 + Collected(nodes, AttributeErrorsAt);
      assert e4 == e3 + Collected(nodes, OperationErrorsAt);
      assert errors == e4 + FitnessErrors(nodes);
    }

    /** `validate(code)`: resets both lists; rejects blank code and code that
        does not parse; otherwise runs every rule and accepts exactly when no
        rule reported an error, else joins the errors with " | ". */
    method Validate(code: string, parse: string -> ParseOutcome) returns (valid: bool, message: string)
      modifies this
      ensures (valid, message) == Verdict(code, parse(code))
      ensures !Blank(code) && parse(code).Parsed? ==>
                errors == AllErrors(parse(code).nodes) && warnings == AllWarnings(parse(code).nodes)
      ensures Blank(code) || !parse(code).Parsed? ==> errors == [] && warnings == []
    {
      errors := [];
      warnings := [];
      if Blank(code) {
        return false, EmptyCodeMessage;
      }
      var tree := parse(code);
      match tree {
        case BadSyntax(msg, lineno) =>
          return false, SyntaxErrorHead + msg + AtLine + NatToString(lineno);
        case ParseFailed(reason) =>
          return false, ParseFailureHead + reason;
        case Parsed(nodes) =>
          RunChecks(nodes);
          if errors != [] {
            return false, Join(errors, Separator);
          }
          return true, "";
      }
    }
  }

  /** `validate_fitness_code(code)`: a fresh validator's verdict. */
  method ValidateFitnessCode(code: string, parse: string -> ParseOutcome) returns (valid: bool, message: string)
    ensures (valid, message) == Verdict(code, parse(code))
    ensures valid <==> message == ""
  {
    var validator := new SecurityValidator();
    valid, message := validator.Validate(code, parse);
    VerdictMessage(code, parse(code));
  }

  // -------------------------------------------------------------- properties

  /** A rule reports nothing over a walk exactly when it reports nothing at
      any node. */
  lemma {:induction false} CollectedEmpty(nodes: seq<Node>, rule: Node -> seq<string>)
    ensures Collected(nodes, rule) == [] <==> forall i :: 0 <= i < |nodes| ==> rule(nodes[i]) == []
  {
    if nodes != [] {
      var n := |nodes| - 1;
      CollectedEmpty(nodes[..n], rule);
      assert forall i :: 0 <= i < n ==> nodes[..n][i] == nodes[i];
    }
  }

  /** Appending messages in two steps or in one gives the same list. */
  lemma Reassociate(a: seq<string>, b: seq<string>, c: seq<string>)
    ensures (a + b) + c == a + (b + c)
  {
  }

  /** One more node adds its own messages. */
  lemma CollectedStep(nodes: seq<Node>, k: nat, rule: Node -> seq<string>)
    requires k < |nodes|
    ensures Collected(nodes[..k + 1], rule) == Collected(nodes[..k], rule) + rule(nodes[k])
  {
    assert nodes[..k + 1][..k] == nodes[..k];
  }

  /** The messages of a walk are those of its parts, in order. */
  lemma {:induction false} CollectedAppend(a: seq<Node>, b: seq<Node>, rule: Node -> seq<string>)
    ensures Collected(a + b, rule) == Collected(a, rule) + Collected(b, rule)
  {
    if b == [] {
      assert a + b == a;
    } else {
      var n := |b| - 1;
      CollectedAppend(a, b[..n], rule);
      assert (a + b)[..|a + b| - 1] == a + b[..n];
    }
  }

  /** No module is both allowed and forbidden. */
  lemma AllowedNotForbidden(name: string)
    requires name in AllowedImports
    ensures name !in ForbiddenModules
  {
  }

  /** One `import` alias is accepted exactly when the first component of its
      name is `math`, `numpy` or `np`; it is reported as forbidden exactly
      when that component is a forbidden module, and at most once. */
  lemma AliasVerdict(name: string)
    ensures AliasError(name).None? <==> FirstComponent(name) in AllowedImports
    ensures AliasError(name) == Some(ForbiddenImportHead + name + AllowedTail) <==> FirstComponent(name) in ForbiddenModules
    ensures AliasError(name) == Some(ImportHead + name + PermittedTail)
        <==> FirstComponent(name) !in ForbiddenModules && FirstComponent(name) !in AllowedImports
  {
    if FirstComponent(name) in AllowedImports {
      AllowedNotForbidden(FirstComponent(name));
    }
    assert (ForbiddenImportHead + name + AllowedTail)[0] != (ImportHead + name + PermittedTail)[0];
  }

  /** An `import` is accepted exactly when each of its aliases is. */
  lemma {:induction false} AliasesAccepted(names: seq<string>)
    ensures AliasErrors(names) == [] <==> forall i :: 0 <= i < |names| ==> FirstComponent(names[i]) in AllowedImports
  {
    if names != [] {
      var n := |names| - 1;
      AliasesAccepted(names[..n]);
      AliasVerdict(names[n]);
      assert forall i :: 0 <= i < n ==> names[..n][i] == names[i];
    }
  }

  /** `from M import ...` is accepted exactly when `M` is absent (a relative
      import without a origin) or its first component is allowed. */
  lemma ImportFromVerdict(origin: Option<string>)
    ensures ImportFromError(origin).None? <==>
              origin.None? || FirstComponent(origin.value) == "" || FirstComponent(origin.value) in AllowedImports
    ensures origin.None? ==> ImportErrorsAt(ImportFrom(origin)) == []
  {
    if origin.Some? && FirstComponent(origin.value) in AllowedImports {
      AllowedNotForbidden(FirstComponent(origin.value));
    }
  }

  /** A comprehension is accepted exactly when none of its `for` clauses
      calls a forbidden builtin by name. */
  lemma {:induction false} IterablesAccepted(iterables: seq<Iterable>)
    ensures IterableErrors(iterables) == [] <==> forall i :: 0 <= i < |iterables| ==> !ForbiddenIterable(iterables[i])
  {
    if iterables != [] {
      var n := |iterables| - 1;
      IterablesAccepted(iterables[..n]);
      assert forall i :: 0 <= i < n ==> iterables[..n][i] == iterables[i];
    }
  }

  /** A node every rule accepts, stated directly over its kind. */
  predicate Clean(node: Node) {
    match node
    case Import(names) => forall i :: 0 <= i < |names| ==> FirstComponent(names[i]) in AllowedImports
    case ImportFrom(origin) => origin.None? || FirstComponent(origin.value) == "" || FirstComponent(origin.value) in AllowedImports
    case Call(func) => CalleeName(func).None? || CalleeName(func).value !in ForbiddenBuiltins
    case Attribute(attr) => attr !in ForbiddenAttributes
    case With => false
    case Comprehension(kind, iterables) =>
      kind == GeneratorExp || forall i :: 0 <= i < |iterables| ==> !ForbiddenIterable(iterables[i])
    case FunctionDef(name, argCount) => name == FitnessName ==> argCount == 1
    case _ => true
  }

  /** A node reports no error under any rule exactly when it is clean. */
  lemma NodeVerdict(node: Node)
    ensures (&& ImportErrorsAt(node) == [] && CallErrorsAt(node) == [] && AttributeErrorsAt(node) == []
             && OperationErrorsAt(node) == [] && SignatureErrorsAt(node) == []) <==> Clean(node)
  {
    match node
    case Import(names) => AliasesAccepted(names);
    case ImportFrom(origin) => ImportFromVerdict(origin);
    case Comprehension(kind, iterables) => IterablesAccepted(iterables);
    case _ =>
  }

  /** The walk has no errors exactly when every node is clean and one of
      them defines `fitness`. */
  lemma AcceptedWalk(nodes: seq<Node>)
    ensures AllErrors(nodes) == [] <==> (forall i :: 0 <= i < |nodes| ==> Clean(nodes[i])) && DefinesFitness(nodes)
  {
    CollectedEmpty(nodes, ImportErrorsAt);
    CollectedEmpty(nodes, CallErrorsAt);
    CollectedEmpty(nodes, AttributeErrorsAt);
    CollectedEmpty(nodes, OperationErrorsAt);
    CollectedEmpty(nodes, SignatureErrorsAt);
    forall i | 0 <= i < |nodes| {
      NodeVerdict(nodes[i]);
    }
  }

  /** Blank code is rejected before parsing; code that parses is accepted
      exactly when every node of its walk is clean and one of them defines
      `fitness`.  In particular a walk without a `fitness` definition, or with
      one that does not take exactly one parameter, is rejected. */
  lemma VerdictAccepts(code: string, nodes: seq<Node>)
    ensures Blank(code) ==> Verdict(code, Parsed(nodes)) == (false, EmptyCodeMessage)
    ensures !Blank(code) ==>
              (Verdict(code, Parsed(nodes)).0 <==> (forall i :: 0 <= i < |nodes| ==> Clean(nodes[i])) && DefinesFitness(nodes))
    ensures !Blank(code) && !DefinesFitness(nodes) ==>
              !Verdict(code, Parsed(nodes)).0 && AllErrors(nodes)[|AllErrors(nodes)| - 1] == MissingFitnessMessage
  {
    AcceptedWalk(nodes);
  }

  /** Warnings never reject: taking a `lambda` or a `try` out of a walk
      leaves its errors as they were and drops only that node's warnings. */
  lemma WarningNodesAddNoErrors(a: seq<Node>, x: Node, b: seq<Node>)
    requires x.Lambda? || x.Try?
    ensures AllErrors(a + [x] + b) == AllErrors(a + b)
    ensures AllWarnings(a + [x] + b) == AllWarnings(a) + OperationWarningsAt(x) + AllWarnings(b)
  {
    CollectedAround(a, x, b, ImportErrorsAt);
    CollectedAround(a, x, b, CallErrorsAt);
    CollectedAround(a, x, b, AttributeErrorsAt);
    CollectedAround(a, x, b, OperationErrorsAt);
    CollectedAround(a, x, b, SignatureErrorsAt);
    CollectedAround(a, x, b, OperationWarningsAt);
    DefinesFitnessAround(a, x, b);
  }

  /** A node inside a walk adds its own messages at its place. */
  lemma CollectedAround(a: seq<Node>, x: Node, b: seq<Node>, rule: Node -> seq<string>)
    ensures Collected(a + [x] + b, rule) == Collected(a, rule) + rule(x) + Collected(b, rule)
    ensures rule(x) == [] ==> Collected(a + [x] + b, rule) == Collected(a + b, rule)
  {
    CollectedAppend(a + [x], b, rule);
    CollectedAppend(a, b, rule);
    assert (a + [x])[..|a|] == a;
  }

  /** A node that is no function definition does not decide whether a walk
      defines `fitness`. */
  lemma DefinesFitnessAround(a: seq<Node>, x: Node, b: seq<Node>)
    requires !x.FunctionDef?
    ensures DefinesFitness(a + [x] + b) == DefinesFitness(a + b)
  {
    var whole, rest := a + [x] + b, a + b;
    if DefinesFitness(whole) {
      var i :| 0 <= i < |whole| && DefinesFitnessAt(whole[i]);
      var j := if i < |a| then i else i - 1;
      assert rest[j] == whole[i];
    }
    if DefinesFitness(rest) {
      var j :| 0 <= j < |rest| && DefinesFitnessAt(rest[j]);
      var i := if j < |a| then j else j + 1;
      assert whole[i] == rest[j];
    }
  }

  /** Code that parses into clean nodes, one of which defines `fitness`,
      is accepted with an empty message. */
  lemma CleanWalkAccepted(code: string, nodes: seq<Node>, at: nat)
    requires !Blank(code)
    requires forall i :: 0 <= i < |nodes| ==> Clean(nodes[i])
    requires at < |nodes| && DefinesFitnessAt(nodes[at])
    ensures Verdict(code, Parsed(nodes)) == (true, "")
  {
    VerdictAccepts(code, nodes);
    VerdictMessage(code, Parsed(nodes));
  }

  /** A single node that is not clean rejects the code. */
  lemma UncleanNodeRejected(code: string, nodes: seq<Node>, at: nat)
    requires at < |nodes| && !Clean(nodes[at])
    ensures !Verdict(code, Parsed(nodes)).0
  {
    VerdictAccepts(code, nodes);
  }

  /** Code is accepted with an empty message, and rejected with a message
      that says why. */
  lemma VerdictMessage(code: string, parsed: ParseOutcome)
    ensures Verdict(code, parsed).0 <==> Verdict(code, parsed).1 == ""
  {
    if !Blank(code) && parsed.Parsed? {
      var errors := AllErrors(parsed.nodes);
      if errors != [] {
        ErrorsAreMessages(parsed.nodes);
        JoinOfMessages(errors);
      }
    }
  }

  /** No message is empty. */
  predicate Messages(s: seq<string>) {
    forall i :: 0 <= i < |s| ==> s[i] != ""
  }

  /** A rule whose every message is non-empty reports only non-empty
      messages over a walk. */
  lemma {:induction false} CollectedMessages(nodes: seq<Node>, rule: Node -> seq<string>)
    requires forall node :: Messages(rule(node))
    ensures Messages(Collected(nodes, rule))
  {
    if nodes != [] {
      CollectedMessages(nodes[..|nodes| - 1], rule);
    }
  }

  /** Every error of a walk is a non-empty message. */
  lemma ErrorsAreMessages(nodes: seq<Node>)
    ensures Messages(AllErrors(nodes))
  {
    forall node: Node ensures Messages(ImportErrorsAt(node)) {
      if node.Import? {
        AliasMessages(node.names);
      }
    }
    forall node: Node ensures Messages(OperationErrorsAt(node)) {
      if node.Comprehension? {
        IterableMessages(node.iterables);
      }
    }
    CollectedMessages(nodes, ImportErrorsAt);
    CollectedMessages(nodes, CallErrorsAt);
    CollectedMessages(nodes, AttributeErrorsAt);
    CollectedMessages(nodes, OperationErrorsAt);
    CollectedMessages(nodes, SignatureErrorsAt);
  }

  lemma {:induction false} AliasMessages(names: seq<string>)
    ensures Messages(AliasErrors(names))
  {
    if names != [] {
      AliasMessages(names[..|names| - 1]);
    }
  }

  lemma {:induction false} IterableMessages(iterables: seq<Iterable>)
    ensures Messages(IterableErrors(iterables))
  {
    if iterables != [] {
      IterableMessages(iterables[..|iterables| - 1]);
    }
  }

  /** Joining messages of which the first is non-empty gives a non-empty text. */
  lemma JoinOfMessages(errors: seq<string>)
    requires errors != [] && errors[0] != ""
    ensures Join(errors, Separator) != ""
  {
  }
}
