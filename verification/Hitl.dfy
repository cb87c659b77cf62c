/** Which tool calls need a human, and which must happen at all. */
module Hitl {
  import opened Wrappers

  datatype Skill = Skill(id: string, hitlTools: seq<string>, phaseGate: bool, checkpoints: seq<string>)

  datatype HitlPolicy = HitlPolicy(
    globalToolBlocklist: set<string>,
    skillToolGates: map<string, set<string>>,
    skillPhaseGates: set<string>,
    skillCheckpoints: map<string, seq<string>>)
  {
    predicate RequiresToolApproval(skill: Option<string>, tool: string) {
      || tool in globalToolBlocklist
      || (skill.Some? && skill.value in skillToolGates && tool in skillToolGates[skill.value])
    }

    predicate RequiresPhaseGate(skill: string) {
      skill in skillPhaseGates
    }

    function RequiredToolNames(skill: Option<string>): set<string> {
      if skill.None? then {}
      else
        (if skill.value in skillToolGates then skillToolGates[skill.value] else {})
        + (if skill.value in skillCheckpoints && skillCheckpoints[skill.value] != [] then {CHECKPOINT_TOOL} else {})
    }
  }

  const CHECKPOINT_TOOL := "request_checkpoint"

  const DEFAULT_BLOCKLIST := {"file_delete", "exec_command", "system_shutdown", "database_delete"}

  predicate IsCheckpointTool(tool: string) {
    tool == CHECKPOINT_TOOL
  }

  /** The policy that some skills declare: the last declaration of an id counts. */
  ghost predicate Declares(policy: HitlPolicy, skills: seq<Skill>) {
    && policy.globalToolBlocklist == DEFAULT_BLOCKLIST
    && (forall id, tool ::
          id in policy.skillToolGates && tool in policy.skillToolGates[id] <==> GateDeclared(skills, id, tool))
    && (forall id ::
          id in policy.skillPhaseGates <==> exists i | 0 <= i < |skills| :: skills[i].id == id && skills[i].phaseGate)
    && (forall id ::
          (if id in policy.skillCheckpoints then policy.skillCheckpoints[id] else []) == CheckpointsOf(skills, id))
    && (forall id | id in policy.skillCheckpoints :: policy.skillCheckpoints[id] != [])
  }

  /** The checkpoints that the last skill of this id with any checkpoints declares. */
  function CheckpointsOf(skills: seq<Skill>, id: string): seq<string> {
    if skills == [] then []
    else
      var last := skills[|skills| - 1];
      if last.id == id && last.checkpoints != [] then last.checkpoints else CheckpointsOf(skills[..|skills| - 1], id)
  }

  lemma {:induction false} CheckpointsAreDeclared(skills: seq<Skill>, id: string)
    ensures CheckpointsOf(skills, id) != [] <==>
      exists i | 0 <= i < |skills| :: skills[i].id == id && skills[i].checkpoints != []
    ensures CheckpointsOf(skills, id) != [] ==> exists i | 0 <= i < |skills| ::
      && skills[i].id == id && skills[i].checkpoints == CheckpointsOf(skills, id)
      && forall j | i < j < |skills| && skills[j].id == id :: skills[j].checkpoints == []
  {
    if skills != [] {
      var init := skills[..|skills| - 1];
      CheckpointsAreDeclared(init, id);
      assert forall i | 0 <= i < |init| :: skills[i] == init[i];
      if skills[|skills| - 1].id != id || skills[|skills| - 1].checkpoints == [] {
        if CheckpointsOf(init, id) != [] {
          var i :| 0 <= i < |init| && init[i].id == id && init[i].checkpoints == CheckpointsOf(init, id)
                   && forall j | i < j < |init| && init[j].id == id :: init[j].checkpoints == [];
          assert skills[i].id == id && skills[i].checkpoints == CheckpointsOf(skills, id);
        }
      }
    }
  }

  ghost predicate GateDeclared(skills: seq<Skill>, id: string, tool: string) {
    exists i | 0 <= i < |skills| ::
      && skills[i].id == id && tool in skills[i].hitlTools
      && forall j | i < j < |skills| && skills[j].id == id :: skills[j].hitlTools == []
  }

  method FromSystemSkills(skills: seq<Skill>) returns (policy: HitlPolicy)
    ensures Declares(policy, skills)
  {
    policy := HitlPolicy(DEFAULT_BLOCKLIST, map[], {}, map[]);
    for n := 0 to |skills|
      invariant Declares(policy, skills[..n])
    {
      var skill := skills[n];
      ghost var before := policy;
      if skill.hitlTools != [] {
        policy := policy.(skillToolGates := policy.skillToolGates[skill.id := set tool | tool in skill.hitlTools]);
      }
      if skill.phaseGate {
        policy := policy.(skillPhaseGates := policy.skillPhaseGates + {skill.id});
      }
      if skill.checkpoints != [] {
        policy := policy.(skillCheckpoints := policy.skillCheckpoints[skill.id := skill.checkpoints]);
      }
      DeclaresMore(before, policy, skills[..n], skill);
      assert skills[..n + 1] == skills[..n] + [skill];
    }
    assert skills[..|skills|] == skills;
  }

  lemma GateDeclaredMore(skills: seq<Skill>, skill: Skill, id: string, tool: string)
    ensures GateDeclared(skills + [skill], id, tool) <==>
      if skill.id == id && skill.hitlTools != [] then tool in skill.hitlTools else GateDeclared(skills, id, tool)
  {
    var more := skills + [skill];
    assert more[|skills|] == skill;
    if skill.id == id && skill.hitlTools != [] {
      if i :| 0 <= i < |more| && more[i].id == id && tool in more[i].hitlTools
              && forall j | i < j < |more| && more[j].id == id :: more[j].hitlTools == [] {
        assert i == |skills|;
      }
    } else {
      if i :| 0 <= i < |more| && more[i].id == id && tool in more[i].hitlTools
              && forall j | i < j < |more| && more[j].id == id :: more[j].hitlTools == [] {
        assert i < |skills|;
        forall j | i < j < |skills| && skills[j].id == id ensures skills[j].hitlTools == [] {
          assert more[j] == skills[j];
        }
        assert more[i] == skills[i];
      }
      if i :| 0 <= i < |skills| && skills[i].id == id && tool in skills[i].hitlTools
              && forall j | i < j < |skills| && skills[j].id == id :: skills[j].hitlTools == [] {
        forall j | i < j < |more| && more[j].id == id ensures more[j].hitlTools == [] {
          if j < |skills| { assert more[j] == skills[j]; }
        }
        assert more[i] == skills[i];
      }
    }
  }

  lemma DeclaresMore(before: HitlPolicy, after: HitlPolicy, skills: seq<Skill>, skill: Skill)
    requires Declares(before, skills)
    requires after.globalToolBlocklist == before.globalToolBlocklist
    requires after.skillToolGates
      == if skill.hitlTools != [] then before.skillToolGates[skill.id := set tool | tool in skill.hitlTools]
         else before.skillToolGates
    requires after.skillPhaseGates
      == if skill.phaseGate then before.skillPhaseGates + {skill.id} else before.skillPhaseGates
    requires after.skillCheckpoints
      == if skill.checkpoints != [] then before.skillCheckpoints[skill.id := skill.checkpoints]
         else before.skillCheckpoints
    ensures Declares(after, skills + [skill])
  {
    var more := skills + [skill];
    assert more[|skills|] == skill && forall i | 0 <= i < |skills| :: more[i] == skills[i];
    forall id, tool
      ensures id in after.skillToolGates && tool in after.skillToolGates[id] <==> GateDeclared(more, id, tool)
    {
      GateDeclaredMore(skills, skill, id, tool);
    }
    assert more[..|more| - 1] == skills;
  }

  // ---- the hook that a run carries ----

  /** `alreadySatisfied` is set on a resumed run, whose mandatory call has happened. */
  datatype Hook = Hook(policy: HitlPolicy, skill: Option<string>, alreadySatisfied: bool) {
    predicate Intercepts(tool: string) {
      IsCheckpointTool(tool) || policy.RequiresToolApproval(skill, tool)
    }

    function RequiredToolNames(): set<string> {
      if alreadySatisfied then {} else policy.RequiredToolNames(skill)
    }
  }

  /** A tool that a skill has to call is one that the hook stops. */
  lemma RequiredToolsAreIntercepted(hook: Hook, tool: string)
    requires tool in hook.RequiredToolNames()
    ensures hook.Intercepts(tool)
  {
  }

  /** What a skill declares reaches the hook of every run bound to it. */
  lemma DeclaredToolsAreRequired(policy: HitlPolicy, skills: seq<Skill>, id: string, tool: string)
    requires Declares(policy, skills)
    ensures tool in Hook(policy, Some(id), false).RequiredToolNames()
       <==> GateDeclared(skills, id, tool)
            || (&& tool == CHECKPOINT_TOOL
                && exists i | 0 <= i < |skills| :: skills[i].id == id && skills[i].checkpoints != [])
  {
    CheckpointsAreDeclared(skills, id);
  }

  /** A run stops for approval at the checkpoint tool, at the four tools that are always
      dangerous, and at the tools that its own skill gates; for any other tool it does not. */
  lemma InterceptsExactly(policy: HitlPolicy, skills: seq<Skill>, skill: Option<string>, resumed: bool, tool: string)
    requires Declares(policy, skills)
    ensures Hook(policy, skill, resumed).Intercepts(tool)
       <==> || tool in {"request_checkpoint", "file_delete", "exec_command", "system_shutdown", "database_delete"}
            || (skill.Some? && GateDeclared(skills, skill.value, tool))
  {
  }

  /** A resumed run, or one without a skill, has to call no tool. */
  lemma NothingIsRequired(policy: HitlPolicy, skill: Option<string>, resumed: bool)
    requires resumed || skill.None?
    ensures Hook(policy, skill, resumed).RequiredToolNames() == {}
  {
  }

  /** A phase waits for approval exactly when some skill of that id says so. */
  lemma PhaseGatesExactly(policy: HitlPolicy, skills: seq<Skill>, id: string)
    requires Declares(policy, skills)
    ensures policy.RequiresPhaseGate(id) <==> exists i | 0 <= i < |skills| :: skills[i].id == id && skills[i].phaseGate
  {
  }
}
