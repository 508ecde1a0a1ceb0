/**
 * The safety gate in front of the execution of generated Python code: a
 * visitor over the parsed syntax tree that collects one message per
 * blacklisted import or call, and the guard in `safe_execute` that refuses
 * to run code with any message.
 *
 * The syntax tree is reduced to the node kinds the visitor looks at; every
 * other node is `Other` with its children in source order. Keyword
 * arguments of a call are among its `args`.
 */
module CodeExecutor {
  import opened Common
  import opened Text

  datatype Node =
    | Import(names: seq<string>)               // `import a.b, c`: the dotted alias names
    | ImportFrom(moduleName: Option<string>)   // `from m import x`; no module for `from . import x`
    | Call(func: Node, args: seq<Node>)
    | Name(id: string)
    | Attribute(value: Node, attr: string)     // `value.attr`
    | Other(children: seq<Node>)

  /** The analyzer's two blacklists, `blacklist_modules` and `blacklist_functions`. */
  datatype Blacklists = Blacklists(modules: set<string>, functions: set<string>)

  /** The blacklists every `CodeAnalyzer` is created with. */
  const Default := Blacklists(
    {"os", "sys", "subprocess", "shutil", "pathlib", "requests", "urllib",
     "socket", "builtins", "eval", "exec", "__import__"},
    {"eval", "exec", "compile", "__import__", "open", "input", "__builtins__",
     "globals", "locals", "getattr", "setattr", "delattr", "isinstance",
     "file", "write", "read"})

  /** `name.split('.')[0]`: the text before the first dot. */
  function FirstComponent(name: string): (r: string)
    ensures r == name[..IndexOf(name, '.')]
    ensures '.' !in r
  {
    Split(name, '.')[0]
  }

  // ---------------------------------------------------------------------
  // What the visitor reports, as functions of the tree
  // ---------------------------------------------------------------------

  /** The messages of `visit_Import` for the aliases `names`, in order. */
  function ImportErrors(names: seq<string>, bl: Blacklists): (r: seq<string>)
    ensures |r| <= |names|
  {
    if names == [] then []
    else
      var last := names[|names| - 1];
      ImportErrors(names[..|names| - 1], bl) +
      (if FirstComponent(last) in bl.modules then ["Importing disallowed module: " + last] else [])
  }

  /** The message of `visit_ImportFrom`, if its module is named and blacklisted. */
  function ImportFromErrors(moduleName: Option<string>, bl: Blacklists): (r: seq<string>)
    ensures |r| <= 1
  {
    if Truthy(moduleName) && FirstComponent(moduleName.value) in bl.modules then
      ["Importing from disallowed module: " + moduleName.value]
    else []
  }

  /**
   * The messages of `visit_Call` for the called expression `func`: a bare
   * blacklisted name, or for an attribute the two independent tests on its
   * receiver and on its attribute name.
   */
  function CallErrors(func: Node, bl: Blacklists): (r: seq<string>)
    ensures |r| <= 2
  {
    if func.Name? && func.id in bl.functions then
      ["Call to disallowed function: " + func.id]
    else if func.Attribute? then
      (if func.value.Name? && func.value.id in bl.modules
       then ["Access to disallowed module: " + func.value.id] else []) +
      (if func.attr in bl.functions
       then ["Call to disallowed function: " + func.attr] else [])
    else []
  }

  /** The messages a node yields by itself, before its children are visited. */
  function NodeErrors(node: Node, bl: Blacklists): seq<string> {
    match node
    case Import(names) => ImportErrors(names, bl)
    case ImportFrom(moduleName) => ImportFromErrors(moduleName, bl)
    case Call(func, _) => CallErrors(func, bl)
    case _ => []
  }

  /** All messages of a traversal of `node`: its own, then its children's, in order. */
  function Errors(node: Node, bl: Blacklists): (r: seq<string>)
    ensures NodeErrors(node, bl) <= r
    decreases node, 1
  {
    NodeErrors(node, bl) + ChildErrors(node, bl)
  }

  /** The messages of visiting the children of `node` in order. */
  function ChildErrors(node: Node, bl: Blacklists): seq<string>
    decreases node, 0
  {
    match node
    case Call(func, args) => Errors(func, bl) + ErrorsOf(args, bl)
    case Attribute(value, _) => Errors(value, bl)
    case Other(children) => ErrorsOf(children, bl)
    case _ => []
  }

  /** The messages of visiting `nodes` one after the other. */
  function ErrorsOf(nodes: seq<Node>, bl: Blacklists): seq<string>
    decreases nodes
  {
    if nodes == [] then []
    else ErrorsOf(nodes[..|nodes| - 1], bl) + Errors(nodes[|nodes| - 1], bl)
  }

  /** Visiting one more node appends its messages. */
  lemma ErrorsOfStep(nodes: seq<Node>, i: nat, bl: Blacklists)
    requires i < |nodes|
    ensures ErrorsOf(nodes[..i + 1], bl) == ErrorsOf(nodes[..i], bl) + Errors(nodes[i], bl)
  {
    assert nodes[..i + 1][..i] == nodes[..i];
  }

  /**
   * A node that is by itself a blacklisted import or call, stated without
   * reference to the messages.
   */
  predicate Offending(node: Node, bl: Blacklists) {
    match node
    case Import(names) => exists i :: 0 <= i < |names| && FirstComponent(names[i]) in bl.modules
    case ImportFrom(m) => m.Some? && m.value != "" && FirstComponent(m.value) in bl.modules
    case Call(func, _) =>
      (func.Name? && func.id in bl.functions) ||
      (func.Attribute? && ((func.value.Name? && func.value.id in bl.modules) || func.attr in bl.functions))
    case _ => false
  }

  /** No node anywhere in the tree is offending. */
  predicate Clean(node: Node, bl: Blacklists)
    decreases node
  {
    !Offending(node, bl) &&
    match node
    case Call(func, args) => Clean(func, bl) && AllClean(args, bl)
    case Attribute(value, _) => Clean(value, bl)
    case Other(children) => AllClean(children, bl)
    case _ => true
  }

  predicate AllClean(nodes: seq<Node>, bl: Blacklists)
    decreases nodes
  {
    forall i :: 0 <= i < |nodes| ==> Clean(nodes[i], bl)
  }

  // ---------------------------------------------------------------------
  // The visitor
  // ---------------------------------------------------------------------

  /** `CodeAnalyzer`: the visitor, appending to its `errors` list as it walks. */
  class CodeAnalyzer {
    var errors: seq<string>
    const blacklistModules: set<string>
    const blacklistFunctions: set<string>

    function Lists(): Blacklists {
      Blacklists(blacklistModules, blacklistFunctions)
    }

    constructor()
      ensures errors == []
      ensures Lists() == Default
    {
      errors := [];
      blacklistModules := Default.modules;
      blacklistFunctions := Default.functions;
    }

    /** `visit`: dispatch on the node kind. */
    method Visit(node: Node)
      modifies this
      ensures errors == old(errors) + Errors(node, Lists())
      decreases node, 2
    {
      match node
      case Import(_) => VisitImport(node);
      case ImportFrom(_) => VisitImportFrom(node);
      case Call(_, _) => VisitCall(node);
      case _ => GenericVisit(node);
    }

    method VisitImport(node: Node)
      requires node.Import?
      modifies this
      ensures errors == old(errors) + Errors(node, Lists())
      decreases node, 1
    {
      var names := node.names;
      for i := 0 to |names|
        invariant errors == old(errors) + ImportErrors(names[..i], Lists())
      {
        assert names[..i + 1][..i] == names[..i];
        if FirstComponent(names[i]) in blacklistModules {
          AppendAssoc(old(errors), ImportErrors(names[..i], Lists()), ["Importing disallowed module: " + names[i]]);
          errors := errors + ["Importing disallowed module: " + names[i]];
        }
      }
      assert names[..|names|] == names;
      GenericVisit(node);
      AppendAssoc(old(errors), ImportErrors(names, Lists()), ChildErrors(node, Lists()));
    }

    method VisitImportFrom(node: Node)
      requires node.ImportFrom?
      modifies this
      ensures errors == old(errors) + Errors(node, Lists())
      decreases node, 1
    {
      if Truthy(node.moduleName) && FirstComponent(node.moduleName.value) in blacklistModules {
        errors := errors + ["Importing from disallowed module: " + node.moduleName.value];
      }
      GenericVisit(node);
      AppendAssoc(old(errors), ImportFromErrors(node.moduleName, Lists()), ChildErrors(node, Lists()));
    }

    method VisitCall(node: Node)
      requires node.Call?
      modifies this
      ensures errors == old(errors) + Errors(node, Lists())
      decreases node, 1
    {
      var func := node.func;
      if func.Name? && func.id in blacklistFunctions {
        errors := errors + ["Call to disallowed function: " + func.id];
      } else if func.Attribute? {
        ghost var receiver := if func.value.Name? && func.value.id in blacklistModules
          then ["Access to disallowed module: " + func.value.id] else [];
        if func.value.Name? && func.value.id in blacklistModules {
          errors := errors + ["Access to disallowed module: " + func.value.id];
        }
        if func.attr in blacklistFunctions {
          errors := errors + ["Call to disallowed function: " + func.attr];
        }
        AppendAssoc(old(errors), receiver, if func.attr in blacklistFunctions
          then ["Call to disallowed function: " + func.attr] else []);
      }
      assert errors == old(errors) + CallErrors(func, Lists());
      GenericVisit(node);
      AppendAssoc(old(errors), CallErrors(func, Lists()), ChildErrors(node, Lists()));
    }

    /** `generic_visit`: visit the children in order. */
    method GenericVisit(node: Node)
      modifies this
      ensures errors == old(errors) + ChildErrors(node, Lists())
      decreases node, 0
    {
      match node
      case Call(func, args) =>
        Visit(func);
        VisitEach(args);
        AppendAssoc(old(errors), Errors(func, Lists()), ErrorsOf(args, Lists()));
      case Attribute(value, _) =>
        Visit(value);
      case Other(children) =>
        VisitEach(children);
      case _ =>
    }

    method VisitEach(nodes: seq<Node>)
      modifies this
      ensures errors == old(errors) + ErrorsOf(nodes, Lists())
      decreases nodes
    {
      for i := 0 to |nodes|
        invariant errors == old(errors) + ErrorsOf(nodes[..i], Lists())
      {
        ErrorsOfStep(nodes, i, Lists());
        AppendAssoc(old(errors), ErrorsOf(nodes[..i], Lists()), Errors(nodes[i], Lists()));
        Visit(nodes[i]);
      }
      assert nodes[..|nodes|] == nodes;
    }
  }

  // ---------------------------------------------------------------------
  // CodeExecutor
  // ---------------------------------------------------------------------

  /** What `ast.parse` gives: a tree, or the text of its `SyntaxError`. */
  datatype Parse = Parsed(tree: Node) | SyntaxError(message: string)

  /** What running accepted code does: leaves a figure, leaves none, or raises. */
  datatype Run = Figure | NoFigure | Raised(message: string)

  /** `safe_execute`'s result: the figure, or an error text. */
  datatype Outcome = FigureResult | ErrorText(text: string)

  /** The messages `check_code_safety` returns for a parse. */
  function SafetyIssues(parse: Parse): (issues: seq<string>)
    ensures parse.SyntaxError? ==> |issues| == 1 && StartsWith(issues[0], "Syntax error: ")
    ensures parse.Parsed? ==> (issues == [] <==> Clean(parse.tree, Default))
  {
    match parse
    case Parsed(tree) =>
      CleanIff(tree, Default);
      Errors(tree, Default)
    case SyntaxError(message) =>
      var issue := "Syntax error: " + message;
      assert issue[..14] == "Syntax error: ";
      [issue]
  }

  /** The text `safe_execute` returns for a non-empty list of messages. */
  function SafetyReport(issues: seq<string>): (r: string)
    ensures StartsWith(r, "Error: Safety issues detected:\n")
  {
    var errorMsg := "Safety issues detected:\n" + Join(issues, "\n");
    assert ("Error: " + errorMsg)[..31] == "Error: " + "Safety issues detected:\n";
    "Error: " + errorMsg
  }

  /** `check_code_safety`: parse, then walk the tree with a fresh analyzer. */
  method CheckCodeSafety(parse: Parse) returns (issues: seq<string>)
    ensures issues == SafetyIssues(parse)
    ensures parse.SyntaxError? ==> |issues| == 1 && StartsWith(issues[0], "Syntax error: ")
    ensures parse.Parsed? ==> (issues == [] <==> Clean(parse.tree, Default))
  {
    match parse
    case Parsed(tree) =>
      var analyzer := new CodeAnalyzer();
      analyzer.Visit(tree);
      issues := analyzer.errors;
      CleanIff(tree, Default);
    case SyntaxError(message) =>
      issues := ["Syntax error: " + message];
      assert issues[0][..14] == "Syntax error: ";
  }

  /**
   * `safe_execute`: refuse code with any safety message, otherwise run it
   * (`run` is what running it does) and report a missing figure or the
   * raised exception. `executed` tells whether the code was run.
   */
  method SafeExecute(parse: Parse, run: Run) returns (result: Outcome, executed: bool)
    ensures executed <==> SafetyIssues(parse) == []
    ensures !executed ==> result == ErrorText(SafetyReport(SafetyIssues(parse)))
    ensures executed && run.Figure? ==> result == FigureResult
    ensures executed && run.NoFigure? ==> result == ErrorText("Error: No figure was created")
    ensures executed && run.Raised? ==> result == ErrorText("Error: " + run.message)
    ensures result.ErrorText? ==> StartsWith(result.text, "Error:")
  {
    var safetyIssues := CheckCodeSafety(parse);
    if safetyIssues != [] {
      var errorMsg := "Safety issues detected:\n" + Join(safetyIssues, "\n");
      result, executed := ErrorText("Error: " + errorMsg), false;
      assert result.text == SafetyReport(safetyIssues);
      ErrorPrefix(errorMsg);
      return;
    }
    executed := true;
    match run
    case Figure =>
      result := FigureResult;
    case NoFigure =>
      result := ErrorText("Error: No figure was created");
      assert result.text[..6] == "Error:";
    case Raised(message) =>
      ErrorPrefix(message);
      result := ErrorText("Error: " + message);
  }

  lemma ErrorPrefix(message: string)
    ensures StartsWith("Error: " + message, "Error:")
  {
    assert ("Error: " + message)[..6] == "Error:";
  }

  // ---------------------------------------------------------------------
  // Properties
  // ---------------------------------------------------------------------

  /** A node reports messages by itself exactly when it is offending. */
  lemma NodeErrorsIff(node: Node, bl: Blacklists)
    ensures NodeErrors(node, bl) == [] <==> !Offending(node, bl)
  {
    if node.Import? {
      ImportErrorsIff(node.names, bl);
    }
  }

  /** A traversal reports nothing exactly when no node anywhere offends. */
  lemma {:induction false} CleanIff(node: Node, bl: Blacklists)
    ensures Errors(node, bl) == [] <==> Clean(node, bl)
    decreases node
  {
    NodeErrorsIff(node, bl);
    match node
    case Call(func, args) =>
      CleanIff(func, bl);
      AllCleanIff(args, bl);
    case Attribute(value, _) =>
      CleanIff(value, bl);
    case Other(children) =>
      AllCleanIff(children, bl);
    case _ =>
  }

  lemma {:induction false} AllCleanIff(nodes: seq<Node>, bl: Blacklists)
    ensures ErrorsOf(nodes, bl) == [] <==> AllClean(nodes, bl)
    decreases nodes
  {
    if nodes != [] {
      var n := |nodes| - 1;
      var init := nodes[..n];
      calc {
        ErrorsOf(nodes, bl) == [];
      <==>
        ErrorsOf(init, bl) + Errors(nodes[n], bl) == [];
      <==>
        ErrorsOf(init, bl) == [] && Errors(nodes[n], bl) == [];
      <==> { AllCleanIff(init, bl); CleanIff(nodes[n], bl); }
        AllClean(init, bl) && Clean(nodes[n], bl);
      <==> { assert forall i :: 0 <= i < n ==> init[i] == nodes[i]; }
        AllClean(nodes, bl);
      }
    }
  }

  /** An `import` reports its aliases one at a time: one message per blacklisted alias, in order. */
  lemma {:induction false} ImportErrorsAppend(names: seq<string>, more: seq<string>, bl: Blacklists)
    ensures ImportErrors(names + more, bl) == ImportErrors(names, bl) + ImportErrors(more, bl)
    decreases |more|
  {
    if more != [] {
      var m := |more| - 1;
      ImportErrorsAppend(names, more[..m], bl);
      assert (names + more)[..|names| + m] == names + more[..m];
      assert (names + more)[|names| + m] == more[m];
    } else {
      assert names + more == names;
    }
  }

  /** An `import` reports nothing exactly when no alias has a blacklisted first component. */
  lemma {:induction false} ImportErrorsIff(names: seq<string>, bl: Blacklists)
    ensures ImportErrors(names, bl) == [] <==> forall i :: 0 <= i < |names| ==> FirstComponent(names[i]) !in bl.modules
  {
    if names != [] {
      var init := names[..|names| - 1];
      ImportErrorsIff(init, bl);
      assert forall i :: 0 <= i < |init| ==> init[i] == names[i];
    }
  }

  /** The first component ignores everything from the first dot on. */
  lemma FirstComponentOf(head: string, rest: string)
    requires '.' !in head
    ensures FirstComponent(head + "." + rest) == head
    ensures FirstComponent(head) == head
  {
    IndexOfPrefix(head, '.', rest);
    assert (head + "." + rest)[..|head|] == head;
    assert head[..|head|] == head;
  }

  /** "os.path" is flagged through its first component. */
  lemma DottedImportFlagged()
    ensures ImportErrors(["os.path"], Default) == ["Importing disallowed module: " + "os.path"]
  {
    FirstComponentOf("os", "path");
    assert "os" + "." + "path" == "os.path";
    assert ["os.path"][..0] == [];
  }

  /** "osx" merely starts with the blacklisted "os" and is not flagged. */
  lemma PrefixNameNotFlagged()
    ensures ImportErrors(["osx"], Default) == []
  {
    FirstComponentOf("osx", "");
    assert ["osx"][..0] == [];
  }

  /** `from . import x` names no module and is never flagged, whatever the blacklists. */
  lemma RelativeImportNotFlagged(bl: Blacklists)
    ensures Errors(ImportFrom(None), bl) == []
    ensures Errors(ImportFrom(Some("")), bl) == []
  {
  }

  /** `os.open(...)` is reported twice: the module receiver and the function name. */
  lemma OsOpenTwoErrors(args: seq<Node>)
    ensures Errors(Call(Attribute(Name("os"), "open"), args), Default) ==
      ["Access to disallowed module: " + "os", "Call to disallowed function: " + "open"] + ErrorsOf(args, Default)
  {
    var func := Attribute(Name("os"), "open");
    var both := ["Access to disallowed module: " + "os", "Call to disallowed function: " + "open"];
    assert "os" in Default.modules && "open" in Default.functions;
    assert CallErrors(func, Default) == both by {
      assert both == ["Access to disallowed module: " + "os"] + ["Call to disallowed function: " + "open"];
    }
    assert Errors(func, Default) == [] by {
      assert Errors(Name("os"), Default) == [];
    }
    calc {
      Errors(Call(func, args), Default);
    ==
      CallErrors(func, Default) + (Errors(func, Default) + ErrorsOf(args, Default));
    ==
      both + ([] + ErrorsOf(args, Default));
    == { assert [] + ErrorsOf(args, Default) == ErrorsOf(args, Default); }
      both + ErrorsOf(args, Default);
    }
  }

  /** A blacklisted call nested as an argument is still reported, after the outer call's messages. */
  lemma NestedCallReported(outer: Node, inner: string, bl: Blacklists)
    requires inner in bl.functions
    ensures Errors(Call(outer, [Call(Name(inner), [])]), bl) ==
      CallErrors(outer, bl) + Errors(outer, bl) + ["Call to disallowed function: " + inner]
  {
    var args := [Call(Name(inner), [])];
    assert args[..0] == [];
    assert Errors(args[0], bl) == ["Call to disallowed function: " + inner] + ChildErrors(args[0], bl);
    assert Errors(Name(inner), bl) == [] && ErrorsOf([], bl) == [];
    assert ChildErrors(args[0], bl) == [];
    assert ErrorsOf(args, bl) == Errors(args[0], bl);
  }
}
