/** The operation times of internal/config/config.go, the configuration the
    earlier orchestrators read: one time per operator, in milliseconds. Where
    the values come from (the environment) is left out. */
module LegacyConfig {
  import TaskManagers

  datatype Config = Config(timeAddition: int, timeSubtraction: int,
                           timeMultiplications: int, timeDivisions: int)

  /** GetOperationsTime: the configured time of one of the four operators,
      zero for anything else. */
  function OperationsTime(c: Config, oper: string): (d: int)
  {
    if oper == "+" then c.timeAddition
    else if oper == "-" then c.timeSubtraction
    else if oper == "*" then c.timeMultiplications
    else if oper == "/" then c.timeDivisions
    else 0
  }

  /** The same times as the operator-keyed map the current task manager reads. */
  function AsDurations(c: Config): (m: map<string, int>)
    ensures m.Keys == {"+", "-", "*", "/"}
  {
    map["+" := c.timeAddition, "-" := c.timeSubtraction,
        "*" := c.timeMultiplications, "/" := c.timeDivisions]
  }

  /** Reading the configuration and looking the operator up in the map give
      the same time for every operator, unknown ones included. */
  lemma OperationsTimeIsDuration(c: Config, oper: string)
    ensures TaskManagers.Duration(AsDurations(c), oper) == OperationsTime(c, oper)
    ensures oper !in {"+", "-", "*", "/"} ==> OperationsTime(c, oper) == 0
  {
  }
}
