TestResult.DisplayName,TestResult.Outcome,TestResult.Duration,TestResult.ResourceCount,RandomSeed
SileroVadProperties.ProcessedFailures (correctness),Failed,00:00:02.0010004,2110925,1
SileroVadProperties.ProcessedFailures (well-formedness),Passed,00:00:00.2634092,121917,1
