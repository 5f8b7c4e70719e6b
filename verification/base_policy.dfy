/** The policy file that the kernel is built with, policy/base.policy. */
module BasePolicy {
  import opened Text
  import P = Policy
  import T = PolicyText

  /** Its rules, line by line. */
  const RULES: seq<P.Rule> :=
    [P.Rule(true, 1, "boot", "enter", "kernel"),
     P.Rule(true, 2, "kernel", "initialize", "interrupts"),
     P.Rule(false, 3, "cpu", "exception", "kernel"),
     P.Rule(true, 4, "shell", "inspect", "*"),
     P.Rule(true, 5, "shell", "expand", "*"),
     P.Rule(true, 6, "shell", "history", "*"),
     P.Rule(true, 7, "shell", "why", "*"),
     P.Rule(true, 8, "shell", "filesystem:list", "ramfs"),
     P.Rule(true, 9, "shell", "filesystem:lookup", "*"),
     P.Rule(true, 10, "shell", "filesystem:read", "*"),
     P.Rule(true, 11, "shell", "module:load", "*"),
     P.Rule(true, 12, "shell", "memory:inspect", "memory"),
     P.Rule(true, 13, "shell", "ui:clear", "window"),
     P.Rule(true, 14, "shell", "ui:redraw", "window"),
     P.Rule(true, 15, "shell", "config:get", "*"),
     P.Rule(true, 16, "shell", "config:set", "*"),
     P.Rule(true, 17, "shell", "policy:show", "policy/base.policy"),
     P.Rule(true, 18, "shell", "policy:change", "policy/base.policy"),
     P.Rule(true, 19, "shell", "process:load", "/bin/hello"),
     P.Rule(true, 20, "*", "syscall:inspect", "*"),
     P.Rule(true, 21, "*", "syscall:yield", "*"),
     P.Rule(true, 22, "*", "syscall:config_get", "*")]

  const LOADED := P.Rules(RULES, 1)

  function Items(rules: seq<P.Rule>): seq<T.Item> {
    if rules == [] then [] else [T.RuleItem(rules[0], "")] + Items(rules[1..])
  }

  /** The text of the file. */
  function Source(): string { T.PrintPolicy(1, Items(RULES)) }

  lemma Subjects()
    ensures T.IsField("boot") && T.IsField("enter") && T.IsField("kernel")
    ensures T.IsField("initialize") && T.IsField("interrupts") && T.IsField("cpu")
    ensures T.IsField("exception") && T.IsField("shell") && T.IsField("*")
  {
  }

  lemma ShellFields()
    ensures T.IsField("inspect") && T.IsField("expand") && T.IsField("history")
    ensures T.IsField("why") && T.IsField("filesystem:list") && T.IsField("ramfs")
    ensures T.IsField("filesystem:lookup") && T.IsField("filesystem:read") && T.IsField("module:load")
    ensures T.IsField("memory:inspect") && T.IsField("memory") && T.IsField("ui:clear")
  {
  }

  lemma OtherFields()
    ensures T.IsField("window") && T.IsField("ui:redraw") && T.IsField("config:get")
    ensures T.IsField("config:set") && T.IsField("policy:show") && T.IsField("policy/base.policy")
    ensures T.IsField("policy:change") && T.IsField("process:load") && T.IsField("/bin/hello")
    ensures T.IsField("syscall:inspect") && T.IsField("syscall:yield") && T.IsField("syscall:config_get")
  {
  }

  lemma RulesPrintable()
    ensures forall i {:trigger RULES[i]} :: 0 <= i < |RULES| ==> T.Printable(RULES[i])
  {
    Subjects();
    ShellFields();
    OtherFields();
    hide T.IsField;
  }

  lemma RulesAreNumbered()
    ensures |RULES| == 22 && forall i {:trigger RULES[i]} :: 0 <= i < |RULES| ==> RULES[i].number == i + 1
  {
  }

  lemma {:induction false} ItemsAreRules(rules: seq<P.Rule>, n: nat)
    requires forall i {:trigger rules[i]} :: 0 <= i < |rules| ==> rules[i].number == n + i + 1
    ensures T.RulesOf(Items(rules), n) == rules && |Items(rules)| == |rules|
    ensures forall i :: 0 <= i < |rules| ==> Items(rules)[i] == T.RuleItem(rules[i], "")
  {
    if rules != [] {
      assert Items(rules)[1..] == Items(rules[1..]);
      ItemsAreRules(rules[1..], n + 1);
      assert rules == [rules[0]] + rules[1..];
    }
  }

  /** The shipped policy loads as its 22 rules at revision 1. */
  lemma Loads()
    ensures T.Parse(Source()) == LOADED
  {
    hide T.Parse, T.PrintPolicy, T.RulesOf, T.Printable, Items;
    RulesAreNumbered();
    ItemsAreRules(RULES, 0);
    forall i | 0 <= i < |Items(RULES)|
      ensures T.ItemOk(Items(RULES)[i])
    {
      RulesPrintable();
    }
    T.PolicyReadsBack(1, Items(RULES));
  }

  // ---------------------------------------------------------------- what it allows

  lemma NewestRuleDecides(p: P.Rules, i: nat, actor: string, target: string, operation: string)
    requires i < |p.list| && P.Applies(p.list[i], actor, target, operation)
    requires forall j :: i < j < |p.list| ==> !P.Applies(p.list[j], actor, target, operation)
    ensures P.Newest(p.list, |p.list|, actor, target, operation) == i + 1
    ensures P.Decide(p, actor, target, operation).allowed == p.list[i].allow
  {
    hide P.Applies, P.Reason;
  }

  lemma DemoMayBeLoaded()
    ensures P.Decide(LOADED, "shell", "/bin/hello", "process:load").allowed
  {
    NewestRuleDecides(LOADED, 18, "shell", "/bin/hello", "process:load");
  }

  lemma PolicyMayBeChanged()
    ensures P.Decide(LOADED, "shell", "policy/base.policy", "policy:change").allowed
  {
    NewestRuleDecides(LOADED, 17, "shell", "policy/base.policy", "policy:change");
  }
}
