/** The cluster API as the determiner sees it: two list calls. What the
    cluster answers for a namespace is fixed when the client is made; the
    ghost log `requests` records which calls were issued, in order, so that
    callers can state when the determiner talks to the cluster. */
module Client {
  import opened Kube

  datatype Request = ListPods(namespace: string) | ListServiceAccounts(namespace: string)

  class Cluster {
    const podsIn: string -> Result<seq<Pod>>
    const serviceAccountsIn: string -> Result<seq<ServiceAccount>>
    ghost var requests: seq<Request>

    constructor (podsIn: string -> Result<seq<Pod>>, serviceAccountsIn: string -> Result<seq<ServiceAccount>>)
      ensures this.podsIn == podsIn && this.serviceAccountsIn == serviceAccountsIn
      ensures requests == []
    {
      this.podsIn := podsIn;
      this.serviceAccountsIn := serviceAccountsIn;
      requests := [];
    }

    /** `listPods(ctx, clientset, namespace)`. */
    method ListPodsIn(namespace: string) returns (r: Result<seq<Pod>>)
      modifies this
      ensures r == podsIn(namespace)
      ensures requests == old(requests) + [ListPods(namespace)]
    {
      r := podsIn(namespace);
      requests := requests + [ListPods(namespace)];
    }

    /** `listServiceAccounts(ctx, clientset, namespace)`. */
    method ListServiceAccountsIn(namespace: string) returns (r: Result<seq<ServiceAccount>>)
      modifies this
      ensures r == serviceAccountsIn(namespace)
      ensures requests == old(requests) + [ListServiceAccounts(namespace)]
    {
      r := serviceAccountsIn(namespace);
      requests := requests + [ListServiceAccounts(namespace)];
    }
  }
}
