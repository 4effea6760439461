/** The REST endpoints the screens call, all under the local API base address. */
module Endpoints {
  const ApiBaseUrl: string := "http://localhost:5000"
  const Websites: string := ApiBaseUrl + "/api/websites"
  const Articles: string := ApiBaseUrl + "/api/articles"
  const OriginalPosts: string := ApiBaseUrl + "/api/originalposts"
  const RewrittenPosts: string := ApiBaseUrl + "/api/rewrittenposts"
  const Cluster: string := ApiBaseUrl + "/api/cluster"
}
