TestResult.DisplayName,TestResult.Outcome,TestResult.Duration,TestResult.ResourceCount,RandomSeed
EnhancedSimulator.Simulator.Tick (correctness),Passed,00:00:00.5414105,1142349,3
EnhancedSimulator.Simulator.Tick (well-formedness),Passed,00:00:00.1405274,141545,3
