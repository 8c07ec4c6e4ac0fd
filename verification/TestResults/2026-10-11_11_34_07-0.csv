TestResult.DisplayName,TestResult.Outcome,TestResult.Duration,TestResult.ResourceCount,RandomSeed
SileroVadProperties.ProcessedFailures (correctness),Failed,00:00:01.9424764,2110927,2
SileroVadProperties.ProcessedFailures (well-formedness),Passed,00:00:00.2485999,121707,2
