TestResult.DisplayName,TestResult.Outcome,TestResult.Duration,TestResult.ResourceCount,RandomSeed
EnhancedSimulator.Simulator.Tick (correctness),Failed,00:00:11.7398739,2121719,0
EnhancedSimulator.Simulator.Tick (well-formedness),Passed,00:00:00.1556341,141353,0
