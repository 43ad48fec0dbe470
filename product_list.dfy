/**
 * The GetProductList GraphQL resolver: an authorization check, two page
 * checks, a customer lookup, then the search-criteria helper and the product
 * repository, and a projection of every product into its response record.
 *
 * The repositories and the price formatter are collaborators this code only
 * calls; they are the function-valued fields of Backend.
 */
module ProductListResolver {
  import opened Wrappers
  import opened SearchCriteriaSpec
  import SearchCriteriaHelper
  import Dates

  /** The request context: the isCustomer extension attribute (possibly unset) and the user id. */
  datatype Context = Context(isCustomer: Option<bool>, userId: int)

  /** CustomerRepository::getById: the customer exists, or NoSuchEntityException with its message. */
  datatype CustomerLookup = Found | NoSuchEntity(message: string)

  /** A product as the repository returns it. */
  datatype ProductItem = ProductItem(
    id: int, name: string, sku: string, price: real,
    description: string, sortDescription: string, status: int,
    weight: real, dimensionPackageHeight: real, dimensionPackageLength: real, dimensionPackageWidth: real)

  /** The repository's answer to getList: one page of items and the total match count. */
  datatype SearchResult = SearchResult(items: seq<ProductItem>, totalCount: nat)

  datatype Status = Status(value: int, labelText: string)

  /** One entry of the response's `items`. */
  datatype ProductDto = ProductDto(
    entityId: int, name: string, sku: string, price: string,
    description: string, sortDescription: string, status: Status,
    weight: real, dimensionPackageHeight: real, dimensionPackageLength: real, dimensionPackageWidth: real)

  datatype PageInfo = PageInfo(pageSize: int, currentPage: int, totalPages: nat)

  datatype ProductPage = ProductPage(totalCount: nat, items: seq<ProductDto>, pageInfo: PageInfo)

  datatype ResolveError =
    | AuthorizationError(message: string)
    | InputError(message: string)
    | NoSuchEntityError(message: string)

  /** The collaborators: customer repository, product repository, pricing helper. */
  datatype Backend = Backend(
    getCustomer: int -> CustomerLookup,
    getList: Criteria -> SearchResult,
    formatPrice: real -> string)

  const NotLoggedIn := "The request is allowed for logged in"
  const CurrentPageTooSmall := "currentPage value must be greater than 0."
  const PageSizeTooSmall := "pageSize value must be greater than 0."

  /** `$args[...] < 1`, where a missing argument is PHP null, which is below 1. */
  predicate BelowOne(n: Option<int>)
  {
    n.None? || n.value < 1
  }

  /** The status switch: value kept, label "Enabled" exactly for status 1. */
  function StatusOf(code: int): (s: Status)
    ensures s.value == code
    ensures s.labelText == "Enabled" <==> code == 1
    ensures s.labelText == "Enabled" || s.labelText == "Disabled"
  {
    match code
    case 1 => Status(code, "Enabled")
    case _ => Status(code, "Disabled")
  }

  /** One product's response record; every attribute but price and status passes through. */
  function Project(item: ProductItem, formatPrice: real -> string): (d: ProductDto)
    ensures d.entityId == item.id && d.name == item.name && d.sku == item.sku
    ensures d.price == formatPrice(item.price)
    ensures d.status.value == item.status && (d.status.labelText == "Enabled" <==> item.status == 1)
  {
    ProductDto(
      item.id, item.name, item.sku, formatPrice(item.price),
      item.description, item.sortDescription, StatusOf(item.status),
      item.weight, item.dimensionPackageHeight, item.dimensionPackageLength, item.dimensionPackageWidth)
  }

  /** `ceil(total_count / page_size)` on integers. */
  function TotalPages(totalCount: nat, pageSize: int): (pages: nat)
    requires pageSize >= 1
    ensures (pages - 1) * pageSize < totalCount <= pages * pageSize
  {
    (totalCount + pageSize - 1) / pageSize
  }

  /** The resolver's foreach over the repository items, appending one record each. */
  method ProjectItems(items: seq<ProductItem>, formatPrice: real -> string) returns (dtos: seq<ProductDto>)
    ensures |dtos| == |items|
    ensures forall i :: 0 <= i < |items| ==> dtos[i] == Project(items[i], formatPrice)
  {
    dtos := [];
    for i := 0 to |items|
      invariant |dtos| == i
      invariant forall k :: 0 <= k < i ==> dtos[k] == Project(items[k], formatPrice)
    {
      var item := Project(items[i], formatPrice);
      dtos := dtos + [item];
    }
  }

  /**
   * What resolve returns, given the helper's pending filters, its columns
   * and its UTC conversion (which decide the criteria build produces).
   */
  function Resolved(ctx: Context, args: Args, pending: seq<Filter>, columns: seq<string>,
                    toUtc: string -> string, backend: Backend): (r: Result<ProductPage, ResolveError>)
    ensures (r.Err? && r.error.AuthorizationError?) <==> ctx.isCustomer == Some(false)
    ensures (r.Err? && r.error.InputError?) <==>
      ctx.isCustomer != Some(false) && (BelowOne(args.currentPage) || BelowOne(args.pageSize))
    ensures r.Ok? ==> r.value.pageInfo.pageSize >= 1 && r.value.pageInfo.currentPage >= 1
  {
    if ctx.isCustomer == Some(false) then Err(AuthorizationError(NotLoggedIn))
    else if BelowOne(args.currentPage) then Err(InputError(CurrentPageTooSmall))
    else if BelowOne(args.pageSize) then Err(InputError(PageSizeTooSmall))
    else
      match backend.getCustomer(ctx.userId)
      case NoSuchEntity(message) => Err(NoSuchEntityError(message))
      case Found =>
        var criteria := BuildResult(pending, columns, toUtc, Dates.IsDateValid, args).criteria;
        var result := backend.getList(criteria);
        var items := seq(|result.items|, i requires 0 <= i < |result.items| => Project(result.items[i], backend.formatPrice));
        Ok(ProductPage(
          result.totalCount,
          items,
          PageInfo(criteria.pageSize.value, criteria.currentPage.value,
                   TotalPages(result.totalCount, criteria.pageSize.value))))
  }

  class GetProductList {
    const helper: SearchCriteriaHelper.GraphQlSearchCriteria
    const backend: Backend

    constructor (helper: SearchCriteriaHelper.GraphQlSearchCriteria, backend: Backend)
      ensures this.helper == helper && this.backend == backend
    {
      this.helper := helper;
      this.backend := backend;
    }

    /**
     * resolve: the answer is Resolved's; the helper's buffer changes only
     * when build ran, which is exactly when the answer is a page.
     */
    method Resolve(ctx: Context, args: Args) returns (r: Result<ProductPage, ResolveError>)
      modifies helper`pending
      ensures r == Resolved(ctx, args, old(helper.pending), helper.columns, helper.toUtc, backend)
      ensures helper.pending ==
        if r.Ok? then BuildResult(old(helper.pending), helper.columns, helper.toUtc, Dates.IsDateValid, args).pending
        else old(helper.pending)
    {
      if ctx.isCustomer == Some(false) {
        return Err(AuthorizationError(NotLoggedIn));
      }
      if BelowOne(args.currentPage) {
        return Err(InputError(CurrentPageTooSmall));
      }
      if BelowOne(args.pageSize) {
        return Err(InputError(PageSizeTooSmall));
      }
      var customer := backend.getCustomer(ctx.userId);
      if customer.NoSuchEntity? {
        return Err(NoSuchEntityError(customer.message));
      }
      var sc := helper.Build(args);
      var result := backend.getList(sc.Snapshot());
      var items := ProjectItems(result.items, backend.formatPrice);
      assert items == seq(|result.items|, i requires 0 <= i < |result.items| => Project(result.items[i], backend.formatPrice));
      var pageSize := sc.pageSize.value;
      r := Ok(ProductPage(
        result.totalCount,
        items,
        PageInfo(pageSize, sc.currentPage.value, TotalPages(result.totalCount, pageSize))));
    }
  }

  // ------------------------------------------------------------------ lemmas

  /** ceil(total / size) is the one page count that covers every match without an empty last page. */
  lemma TotalPagesIsCeiling(totalCount: nat, pageSize: int, pages: int)
    requires pageSize >= 1
    requires (pages - 1) * pageSize < totalCount <= pages * pageSize
    ensures pages == TotalPages(totalCount, pageSize)
  {
    var t: int := TotalPages(totalCount, pageSize);
    CancelFactor(pages - 1, t, pageSize);
    CancelFactor(t - 1, pages, pageSize);
  }

  /** A positive factor can be cancelled from a strict inequality. */
  lemma CancelFactor(a: int, b: int, c: int)
    requires c >= 1 && a * c < b * c
    ensures a < b
  {
  }

  lemma TotalPagesExamples()
    ensures TotalPages(25, 10) == 3
    ensures TotalPages(20, 10) == 2
    ensures TotalPages(0, 10) == 0
  {
  }

  /** An explicit `false` isCustomer fails authorization whatever the arguments. */
  lemma AuthorizationFirst(ctx: Context, args: Args, pending: seq<Filter>, columns: seq<string>,
                           toUtc: string -> string, backend: Backend)
    requires ctx.isCustomer == Some(false)
    ensures Resolved(ctx, args, pending, columns, toUtc, backend) == Err(AuthorizationError(NotLoggedIn))
  {
  }

  /** currentPage is checked before pageSize, and both before anything else runs. */
  lemma PageChecksInOrder(ctx: Context, args: Args, pending: seq<Filter>, columns: seq<string>,
                          toUtc: string -> string, backend: Backend)
    requires ctx.isCustomer != Some(false)
    ensures BelowOne(args.currentPage) ==>
      Resolved(ctx, args, pending, columns, toUtc, backend) == Err(InputError(CurrentPageTooSmall))
    ensures !BelowOne(args.currentPage) && BelowOne(args.pageSize) ==>
      Resolved(ctx, args, pending, columns, toUtc, backend) == Err(InputError(PageSizeTooSmall))
  {
  }

  /** A missing customer becomes a not-found error carrying the repository's message. */
  lemma MissingCustomerIsNotFound(ctx: Context, args: Args, pending: seq<Filter>, columns: seq<string>,
                                  toUtc: string -> string, backend: Backend)
    requires ctx.isCustomer != Some(false) && !BelowOne(args.currentPage) && !BelowOne(args.pageSize)
    requires backend.getCustomer(ctx.userId).NoSuchEntity?
    ensures Resolved(ctx, args, pending, columns, toUtc, backend)
         == Err(NoSuchEntityError(backend.getCustomer(ctx.userId).message))
  {
  }

  /**
   * An error never depends on the builder's state or on the product
   * repository and price formatter: neither is consulted on an error path.
   */
  lemma ErrorsIgnoreBuilderAndRepository(ctx: Context, args: Args, pending: seq<Filter>, columns: seq<string>,
                                         toUtc: string -> string, backend: Backend,
                                         pending': seq<Filter>, columns': seq<string>, toUtc': string -> string,
                                         getList': Criteria -> SearchResult, formatPrice': real -> string)
    requires Resolved(ctx, args, pending, columns, toUtc, backend).Err?
    ensures Resolved(ctx, args, pending', columns', toUtc', backend.(getList := getList', formatPrice := formatPrice'))
         == Resolved(ctx, args, pending, columns, toUtc, backend)
  {
  }

  /**
   * A page comes back exactly when every guard passes; its items follow the
   * repository's, one record each, in order, with the status label rule; its
   * page info echoes the arguments and counts the pages by ceiling division.
   */
  lemma SuccessfulPage(ctx: Context, args: Args, pending: seq<Filter>, columns: seq<string>,
                       toUtc: string -> string, backend: Backend)
    ensures var r := Resolved(ctx, args, pending, columns, toUtc, backend);
      r.Ok? <==> (ctx.isCustomer != Some(false) && !BelowOne(args.currentPage) && !BelowOne(args.pageSize)
                  && backend.getCustomer(ctx.userId).Found?)
    ensures var r := Resolved(ctx, args, pending, columns, toUtc, backend);
      r.Ok? ==>
        var result := backend.getList(BuildResult(pending, columns, toUtc, Dates.IsDateValid, args).criteria);
        var page := r.value;
        && page.totalCount == result.totalCount
        && |page.items| == |result.items|
        && (forall i :: 0 <= i < |result.items| ==>
              && page.items[i].entityId == result.items[i].id
              && page.items[i].price == backend.formatPrice(result.items[i].price)
              && page.items[i].status.value == result.items[i].status
              && (page.items[i].status.labelText == "Enabled" <==> result.items[i].status == 1))
        && page.pageInfo.pageSize == args.pageSize.value
        && page.pageInfo.currentPage == args.currentPage.value
        && (page.pageInfo.totalPages - 1) * page.pageInfo.pageSize < page.totalCount
             <= page.pageInfo.totalPages * page.pageInfo.pageSize
  {
  }
}
