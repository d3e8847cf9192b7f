TestResult.DisplayName,TestResult.Outcome,TestResult.Duration,TestResult.ResourceCount,RandomSeed
EnhancedSimulator.Simulator.Tick (correctness),Passed,00:00:00.3995964,942470,1
EnhancedSimulator.Simulator.Tick (well-formedness),Passed,00:00:00.1287950,142190,1
