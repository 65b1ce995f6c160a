/**
 Which tasks there are: START and its like add one, at the route they name; KILLALL ends them all.
 */
module ExrailCrew {
  import opened Basics
  import opened ExrailScript
  import opened ExrailVm
  import opened ExrailCorrect
  import opened ExrailRun
  import opened ExrailFlags

  // ---------------------------------------------------------------- where a route is

  /** No end of the table up to this entry. */
  predicate Reaches(code: seq<Byte>, k: int) {
    0 <= k < |code| && k % 3 == 0 && forall j :: 0 <= j <= k && j % 3 == 0 ==> code[j] != ENDEXRAIL
  }

  /** This entry declares route id, by a declaration of these kinds. */
  predicate Declares(code: seq<Byte>, k: int, kinds: Kinds, id: Word) {
    Reaches(code, k) && kinds.Has(code[k]) && Operand(code, k, 0) == id
  }

  lemma {:induction false} FirstPcFirst(code: seq<Byte>, pc: int, kinds: Kinds, id: Word)
    requires 0 <= pc && pc % 3 == 0 && forall j :: 0 <= j < pc && j < |code| && j % 3 == 0 ==> code[j] != ENDEXRAIL
    ensures match FirstPc(code, pc, kinds, id)
            case Some(k) => pc <= k && Declares(code, k, kinds, id)
                            && forall j :: pc <= j < k ==> !Declares(code, j, kinds, id)
            case None => forall j :: pc <= j ==> !Declares(code, j, kinds, id)
    decreases |code| - pc
  {
    hide Operand;
    if pc < |code| && code[pc] != ENDEXRAIL && !(kinds.Has(code[pc]) && Operand(code, pc, 0) == id) {
      FirstPcFirst(code, pc + 3, kinds, id);
    }
  }

  /** The look-up finds the first ROUTE or AUTOMATION of that number, or if there is none the first
      SEQUENCE; -1 if there is neither. */
  lemma LooksUpFirst(code: seq<Byte>, id: Word)
    requires |code| <= 32768
    ensures var pc := LookupPc(code, id);
            if exists k :: Declares(code, k, Routes, id) then
              Declares(code, pc, Routes, id) && forall j :: 0 <= j < pc ==> !Declares(code, j, Routes, id)
            else if exists k :: Declares(code, k, Sequences, id) then
              Declares(code, pc, Sequences, id) && forall j :: 0 <= j < pc ==> !Declares(code, j, Sequences, id)
            else pc == -1
  {
    hide FirstMark, Marks, FirstPc, Operand;
    FirstMarkIsFirstPc(code, 0, Routes, id);
    FirstMarkIsFirstPc(code, 0, Sequences, id);
    FirstPcFirst(code, 0, Routes, id);
    FirstPcFirst(code, 0, Sequences, id);
  }

  // ---------------------------------------------------------------- tasks come and go

  /** START, START_SHARED and START_SEND name the route, SENDLOCO a cab and then the route: the task
      goes on, and behind the others stands a new one at that route, if it is there. */
  lemma StartsTask(code: seq<Byte>, s: System, who: nat, input: Input, op: Byte)
    requires Stands(code, s, who, op) && IsStart(op)
    ensures var t := s.tasks[who].t;
            var pc := LookupPc(code, Operand(code, t.pc, if op == SENDLOCO then 1 else 0));
            var others := s.tasks[who := Running(t.(pc := t.pc + 3))];
            ExrailFlags.Act(code, s, Serve(who, input)).0 ==
              s.(tasks := others + if pc < 0 then [] else [Running(Thread(pc, []))])
  {
    hide Operand, LookupPc, SkipIf, GetFlag, SetFlag, FreeAll;
    var t := s.tasks[who].t;
    assert Arity(op) == if op == SENDLOCO then 2 else 1;
    var others := s.tasks[who := Running(t.(pc := t.pc + 3))];
    assert others + [] == others;
  }

  /** In the table of a script the new task does what the script says from that route on. */
  lemma StartedTaskRuns(file: Script, s: System, who: nat, input: Input, op: Byte, inputs: seq<Input>)
    requires ScriptOk(file) && |RouteCode(file)| <= 32768
    requires Stands(RouteCode(file), s, who, op) && IsStart(op)
    ensures var code := RouteCode(file);
            var route := FindRoute(file, Operand(code, s.tasks[who].t.pc, if op == SENDLOCO then 1 else 0));
            var s' := ExrailFlags.Act(code, s, Serve(who, input)).0;
            |s'.tasks| == |s.tasks| + (if route.Some? then 1 else 0)
            && (route.Some? ==>
                  Trace(code, s'.tasks[|s.tasks|], inputs) ==
                  Story(file, Active(Runner(route.value, [])), Visible(code, s'.tasks[|s.tasks|], inputs)))
  {
    hide Operand, LookupPc, FindRoute, Trace, Story, Visible, ExrailFlags.Act, RouteCode, Code, IsStart, OnEntry;
    var code := RouteCode(file);
    StartsTask(code, s, who, input, op);
    var id := Operand(code, s.tasks[who].t.pc, if op == SENDLOCO then 1 else 0);
    LookupAgrees(file, id);
    if FindRoute(file, id).Some? {
      FoundIsPositive(file, code, id);
      RouteRuns(file, id, inputs);
    }
  }

  /** KILLALL ends every task, anything else no other than the one that is served. */
  lemma OthersLive(code: seq<Byte>, s: System, who: nat, input: Input, k: nat)
    requires k < |s.tasks| && k != who
    ensures var tasks := ExrailFlags.Act(code, s, Serve(who, input)).0.tasks;
            |tasks| >= |s.tasks| && tasks[k] == if Stands(code, s, who, KILLALL) then Killed else s.tasks[k]
  {
    hide Operand, LookupPc, SkipIf, GetFlag, SetFlag, FreeAll, StartRoute;
  }
}
