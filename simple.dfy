/**
 * The dependency-injection demo (simple/simple.go): building the service
 * fails exactly when its repository is flagged erroneous.
 */
module Simple {
  import opened Wrappers

  class SimpleRepository {
    const Error: bool

    /** `NewSimpleRepository`. */
    constructor (isErr: bool)
      ensures Error == isErr
    {
      Error := isErr;
    }
  }

  /** The service embeds the very repository object it was built from. */
  datatype SimpleService = SimpleService(repository: SimpleRepository)

  const FailedCreateService := "failed create service"

  function NewSimpleService(repository: SimpleRepository): (r: Result<SimpleService, string>)
    ensures r.Failure? <==> repository.Error
    ensures r.Failure? ==> r.error == FailedCreateService
    ensures r.Success? ==> r.value.repository == repository
  {
    if repository.Error then Failure(FailedCreateService)
    else Success(SimpleService(repository))
  }
}
