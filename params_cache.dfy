/**
 * The delivery-parameters cache (`NotificationParamsService`): a one-slot
 * read-through cache in front of the parameters table. A hit answers from the
 * slot; a miss reads the table once and keeps the row if there is one;
 * `ClearCache` empties the slot.
 */
module ParamsCache {
  import opened Wrappers
  import opened Entities

  /** The parameters table behind `INotificationParamsRepository`; `calls` counts the reads. */
  class ParamsRepository {
    var row: Option<NotificationParams>
    ghost var calls: nat

    constructor (row: Option<NotificationParams>)
      ensures this.row == row && calls == 0
    {
      this.row := row;
      calls := 0;
    }

    /** `GetNotificationParamsAsync()`: the current row, or null when the table is empty. */
    method GetNotificationParams() returns (r: Option<NotificationParams>)
      modifies this`calls
      ensures r == row
      ensures calls == old(calls) + 1
    {
      r := row;
      calls := calls + 1;
    }
  }

  /** `NotificationParamsService`: the slot under the key `NotificationParams` and the repository. */
  class NotificationParamsService {
    var cached: Option<NotificationParams>
    const repository: ParamsRepository

    constructor (repository: ParamsRepository)
      ensures this.repository == repository && cached.None?
    {
      this.repository := repository;
      cached := None;
    }

    /**
     * `GetNotificationParamsAsync()`: the cached row without touching the
     * repository, or else exactly one repository read, whose result is
     * returned and, when it is not null, cached.
     */
    method GetNotificationParams() returns (r: Option<NotificationParams>)
      modifies this`cached, repository`calls
      ensures old(cached).Some? ==> r == old(cached) && cached == old(cached) && repository.calls == old(repository.calls)
      ensures old(cached).None? ==> r == repository.row && cached == r && repository.calls == old(repository.calls) + 1
      ensures repository.row == old(repository.row)
    {
      if cached.Some? {
        return cached;
      }
      r := repository.GetNotificationParams();
      if r.Some? {
        cached := r;
      }
    }

    /** `ClearCache()`: remove the slot. */
    method ClearCache()
      modifies this`cached
      ensures cached.None?
    {
      cached := None;
    }
  }

  /** Two reads in a row when the table has a row: the same value, and at most one repository read. */
  method GetTwice(service: NotificationParamsService) returns (first: Option<NotificationParams>, second: Option<NotificationParams>)
    requires service.repository.row.Some?
    modifies service, service.repository
    ensures first.Some? && second == first
    ensures service.cached == first
    ensures service.repository.calls <= old(service.repository.calls) + 1
    ensures old(service.cached).None? ==> first == service.repository.row && service.repository.calls == old(service.repository.calls) + 1
  {
    first := service.GetNotificationParams();
    second := service.GetNotificationParams();
  }

  /** A null row is not cached: each read goes back to the repository. */
  method GetTwiceWithoutRow(service: NotificationParamsService) returns (first: Option<NotificationParams>, second: Option<NotificationParams>)
    requires service.cached.None? && service.repository.row.None?
    modifies service, service.repository
    ensures first.None? && second.None? && service.cached.None?
    ensures service.repository.calls == old(service.repository.calls) + 2
  {
    first := service.GetNotificationParams();
    second := service.GetNotificationParams();
  }

  /** After `ClearCache` the next read goes to the repository and sees its current row. */
  method ClearThenGet(service: NotificationParamsService) returns (r: Option<NotificationParams>)
    modifies service, service.repository
    ensures r == service.repository.row
    ensures service.repository.calls == old(service.repository.calls) + 1
  {
    service.ClearCache();
    r := service.GetNotificationParams();
  }
}
