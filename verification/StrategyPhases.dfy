/** The phase machine every control strategy goes through, and the selection of
    the strategy in use. */
module StrategyPhases {

  datatype Phase = Prepare | Startup | Init | Loop | Reset

  datatype ReturnCode = Error | Wait | Ok

  const NUM_STRATEGIES: nat := 6
  const STRATEGY_INTERLACED: nat := 3
  const STRATEGY_STOP: nat := 4
  const STRATEGY_IDENTIFICATION: nat := 5

  datatype Strategy = Strategy(phase: Phase, current: nat, previous: nat) {
    function ResetStrategy(): Strategy {
      this.(phase := Reset)
    }

    function NextStrategy(): Strategy {
      Strategy(Reset, (current + 1) % NUM_STRATEGIES, current)
    }

    function PreviousStrategy(): Strategy {
      Strategy(Reset, previous, current)
    }

    function SetStrategy(wanted: nat): Strategy {
      if current != wanted then Strategy(Reset, wanted, current) else this
    }

    /** The phase in progress was called and returned rc. */
    function Called(rc: ReturnCode): Strategy {
      if rc == Ok then this.(phase := Follower(phase)) else this
    }
  }

  function Follower(phase: Phase): Phase {
    match phase
    case Reset => Prepare
    case Prepare => Startup
    case Startup => Init
    case Init => Loop
    case Loop => Loop
  }
}
