TestResult.DisplayName,TestResult.Outcome,TestResult.Duration,TestResult.ResourceCount,RandomSeed
EnhancedSimulator.Simulator.Tick (correctness),Failed,00:00:07.1036179,2121746,2
EnhancedSimulator.Simulator.Tick (well-formedness),Passed,00:00:00.1228966,141377,2
