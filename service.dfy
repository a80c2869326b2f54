/**
 * The category service as the controller sees it. Its code is not part of
 * this model: `behaviour` gives, for each operation and argument, the
 * value it returns or the failure it panics with, and `calls` records
 * every call made on it.
 */
module Service {
  import opened Failures
  import opened Web

  datatype Outcome<+T> = Returned(value: T) | Panicked(failure: Failure)

  datatype Behaviour = Behaviour(
    create: CategoryCreateRequest -> Outcome<CategoryResponse>,
    update: CategoryUpdateRequest -> Outcome<CategoryResponse>,
    delete: int -> Outcome<()>,
    findById: int -> Outcome<CategoryResponse>,
    findAll: Outcome<seq<CategoryResponse>>)

  datatype Call =
    | CreateCall(createReq: CategoryCreateRequest)
    | UpdateCall(updateReq: CategoryUpdateRequest)
    | DeleteCall(deleteId: int)
    | FindByIdCall(findId: int)
    | FindAllCall

  class CategoryService {
    const behaviour: Behaviour
    ghost var calls: seq<Call>

    constructor (behaviour: Behaviour)
      ensures this.behaviour == behaviour && calls == []
    {
      this.behaviour := behaviour;
      calls := [];
    }

    method Create(req: CategoryCreateRequest) returns (o: Outcome<CategoryResponse>)
      modifies this
      ensures calls == old(calls) + [CreateCall(req)] && o == behaviour.create(req)
    {
      calls := calls + [CreateCall(req)];
      o := behaviour.create(req);
    }

    method Update(req: CategoryUpdateRequest) returns (o: Outcome<CategoryResponse>)
      modifies this
      ensures calls == old(calls) + [UpdateCall(req)] && o == behaviour.update(req)
    {
      calls := calls + [UpdateCall(req)];
      o := behaviour.update(req);
    }

    method Delete(id: int) returns (o: Outcome<()>)
      modifies this
      ensures calls == old(calls) + [DeleteCall(id)] && o == behaviour.delete(id)
    {
      calls := calls + [DeleteCall(id)];
      o := behaviour.delete(id);
    }

    method FindById(id: int) returns (o: Outcome<CategoryResponse>)
      modifies this
      ensures calls == old(calls) + [FindByIdCall(id)] && o == behaviour.findById(id)
    {
      calls := calls + [FindByIdCall(id)];
      o := behaviour.findById(id);
    }

    method FindAll() returns (o: Outcome<seq<CategoryResponse>>)
      modifies this
      ensures calls == old(calls) + [FindAllCall] && o == behaviour.findAll
    {
      calls := calls + [FindAllCall];
      o := behaviour.findAll;
    }
  }
}
