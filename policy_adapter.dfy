/** The policy factory: an agent-type token and the construction parameters
    select one policy variant; every unrecognised token selects the human policy. */
module PolicyAdapter {
  import opened Configuration

  /** The policy variants; their internals (random choice, greedy evaluation,
      minimax search, human input) are outside this model. */
  datatype Policy =
    | RandomPolicy(seed: int)
    | GreedyPolicy(init: InitParams)
    | MaxiMinPolicy(depth: int, init: InitParams)
    | HumanPolicy

  predicate IsBuiltinToken(policyType: string) {
    policyType == "rand" || policyType == "greedy" || policyType == "maximin"
  }

  function CreatePolicy(policyType: string, seed: int, searchDepth: int,
                        initP: InitParams): (p: Policy)
    ensures p == RandomPolicy(seed) <==> policyType == "rand"
    ensures p == GreedyPolicy(initP) <==> policyType == "greedy"
    ensures p == MaxiMinPolicy(searchDepth, initP) <==> policyType == "maximin"
    ensures p == HumanPolicy <==> !IsBuiltinToken(policyType)
    ensures p.MaxiMinPolicy? ==> p.depth == searchDepth
  {
    if policyType == "rand" then RandomPolicy(seed)
    else if policyType == "greedy" then GreedyPolicy(initP)
    else if policyType == "maximin" then MaxiMinPolicy(searchDepth, initP)
    else HumanPolicy
  }

  /** The token the command line uses for each variant. */
  function TokenOf(p: Policy): (t: string)
    ensures IsBuiltinToken(t) || t == "human"
  {
    match p
    case RandomPolicy(_) => "rand"
    case GreedyPolicy(_) => "greedy"
    case MaxiMinPolicy(_, _) => "maximin"
    case HumanPolicy => "human"
  }

  /** Every command-line token names the variant it builds; any other token
      builds the human policy. */
  lemma CreatePolicyTokenRoundTrip(policyType: string, seed: int, searchDepth: int,
                                   initP: InitParams)
    ensures IsBuiltinToken(policyType) ==> TokenOf(CreatePolicy(policyType, seed, searchDepth, initP)) == policyType
    ensures !IsBuiltinToken(policyType) ==> TokenOf(CreatePolicy(policyType, seed, searchDepth, initP)) == "human"
  {
  }

  /** The seed reaches only the random policy, the depth only maximin, and the
      initialisation parameters only greedy and maximin. */
  lemma CreatePolicyUsesOnlyItsParameters(policyType: string, seed1: int, seed2: int,
                                          depth1: int, depth2: int, init1: InitParams, init2: InitParams)
    ensures policyType != "rand" && policyType != "maximin" && policyType != "greedy" ==>
            CreatePolicy(policyType, seed1, depth1, init1) == CreatePolicy(policyType, seed2, depth2, init2)
    ensures policyType == "rand" ==>
            CreatePolicy(policyType, seed1, depth1, init1) == CreatePolicy(policyType, seed1, depth2, init2)
    ensures policyType == "greedy" ==>
            CreatePolicy(policyType, seed1, depth1, init1) == CreatePolicy(policyType, seed2, depth2, init1)
    ensures policyType == "maximin" ==>
            CreatePolicy(policyType, seed1, depth1, init1) == CreatePolicy(policyType, seed2, depth1, init1)
  {
  }

  /** An unrecognised token such as "foo" falls through to the human policy. */
  lemma UnknownTokenIsHuman(seed: int, searchDepth: int, initP: InitParams)
    ensures CreatePolicy("foo", seed, searchDepth, initP) == HumanPolicy
    ensures CreatePolicy("human", seed, searchDepth, initP) == HumanPolicy
  {
  }
}
