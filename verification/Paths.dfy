/** Building runs step by step. */
module Paths {
  import opened Cluster

  /** A continuation of a run from `w`. */
  ghost predicate Path(w: World, path: seq<World>, acts: seq<Action>) {
    |path| == |acts| + 1 && path[0] == w && forall k :: 0 <= k < |acts| ==> StepAt(path, acts, k)
  }

  lemma Extend(w: World, path: seq<World>, acts: seq<Action>, a: Action) returns (path': seq<World>, acts': seq<Action>)
    requires Path(w, path, acts) && Enabled(path[|acts|], a)
    ensures Path(w, path', acts') && path'[|acts'|] == Step(path[|acts|], a)
    ensures path' == path + [Step(path[|acts|], a)] && acts' == acts + [a]
  {
    path', acts' := path + [Step(path[|acts|], a)], acts + [a];
    forall k | 0 <= k < |acts'|
      ensures StepAt(path', acts', k)
    {
      if k < |acts| { assert StepAt(path, acts, k); }
    }
  }

  /** A path from an initial state is a run. */
  lemma PathIsRun(w: World, path: seq<World>, acts: seq<Action>)
    requires Init(w) && Path(w, path, acts)
    ensures Run(path, acts)
  {
  }
}
