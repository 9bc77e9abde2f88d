# A verified model of the micro-business server

The repository is a reverse proxy with a thread pool (`proxy_server/`) in front of small HTTP shops
(`http_server/`). A client's request line decides which location of the configuration serves it; the
proxy inserts the header `Client: ip:port`, sends the message to the first live server of that
location, and finds the client again by the `Client` header that the shop echoes in its response.

The project models these parts and proves what they promise together:

| file | models |
|---|---|
| `Bytes.dfy` | searching and trimming of byte strings |
| `HttpRequest.dfy`, `HttpContext.dfy` | the request object and the resumable request parser over a growing buffer |
| `HttpResponse.dfy`, `HeaderRoundTrip.dfy` | the response printer, with the order in which a `std::map` is walked; what the parser's header loop reads back |
| `HttpServer.dfy` | one backend connection: parse, answer, reset, again and again |
| `Routing.dfy` | longest-prefix routing, the proxy's own request-line reader, insertion and extraction of `Client` |
| `Backend.dfy` | the shop's handlers, and why the address a printed response yields is the echoed one |
| `Config.dfy`, `ConfigFiles.dfy`, `ConfigMerge.dfy` | the configuration machine; what a file means, whatever its layout and however its lines are cut |
| `ConnectionTables.dfy`, `EventLoop.dfy` | the proxy's four tables while descriptors are closed and reused, and the methods that update them |
| `EndToEnd.dfy`, `Misdelivery.dfy` | clients, proxy and backend together: which connection a reply reaches, and when a client receives another one's |
| `TaskQueue.dfy`, `Threadpool.dfy` | the bounded blocking queue as a monitor; the pool's start, drain and stop |
| `ConnectionPool.dfy`, `SocketIo.dfy`, `Stock.dfy` | the semaphore-guarded database pool; the read and write loops; the locked purchase |

Objects that the program updates in place are classes. Each of their methods equates the new state
with a function of the old one, and the lemmas are about that function. Concurrent parts are state
machines whose steps are the atomic steps of the threads, and the theorems quantify over all runs.

## Model

| member | source | states |
|---|---|---|
| HttpRequests.HttpRequest.SetMethod | http_server/HttpRequest.h:56-85 | each of the five names gives its method and is the only one that does; any other gives false; may be called only while no method is set |
| HttpRequests.HttpRequest.SetQuery | http_server/HttpRequest.h:124-128 | the text is kept and its pairs override the queries collected before; nothing else changes |
| HttpRequests.HttpRequest.ParseQuery | http_server/HttpRequest.h:130-153 | the splitting loop ends on every text, and leaves the map overridden by the pairs of the text, last one winning |
| HttpRequests.HttpRequest.AddHeader | http_server/HttpRequest.h:164-178 | the two loops leave the value without white space at either end, under the bytes before the colon |
| HttpRequests.HttpRequest.GetHeader | http_server/HttpRequest.h:191-200 | the value, or the empty string for an absent field |
| HttpRequests.HttpRequest.GetQuery | http_server/HttpRequest.h:180-189 | the value, or the intended empty string for an absent key |
| HttpRequests.HttpRequest.Swap | http_server/HttpRequest.h:205-213 | every field is exchanged except the query map |
| HttpRequests.LastWinsAppends | http_server/HttpRequest.h:135-152 | reading two lists of pairs one after the other is merging their maps, the second winning |
| HttpRequests.LastWinsIsLast | http_server/HttpRequest.h:135-152 | the map has exactly the keys that were written, each with the value written last |
| HttpRequests.ReadArePrintable | http_server/HttpRequest.h:135-152 | no text ever yields a key with '=' or a value with '&' |
| HttpRequests.QueryRoundTripIff | http_server/HttpRequest.h:130-153 | a printed list of pairs is read back if and only if no key has '=' and no value has '&' |
| HttpRequests.JunkIsIgnored | http_server/HttpRequest.h:137-138 | text after the last '&' that has no '=' is ignored |
| HttpContexts.HttpContext.ProcessRequestLine | http_server/HttpContext.cc:16-57 | verdict and request are those of the line reader, also on a failure, where fields set earlier stay set |
| HttpContexts.HttpContext.ParseRequest | http_server/HttpContext.cc:60-118 | answer, state, request and leftover bytes are those of the turn-by-turn machine |
| HttpContexts.HttpContext.Reset | http_server/HttpContext.h:49-54 | ready for a request line; the request is fresh but for its query map |
| HttpContexts.HaltsIff | http_server/HttpContext.cc:64-116 | the loop ends if and only if it is entered in one of the two expecting states |
| HttpContexts.RunResumes | http_server/HttpContext.cc:60-118 | a call that stopped for lack of bytes goes on as if they had been there; a finished call never looks at later bytes |
| HttpContexts.ChunkingIndependence | http_server/HttpContext.cc:60-118 | any split of the bytes into chunks, even between CR and LF, gives the outcome of one call on all of them |
| HttpContexts.RequestLineAccepts | http_server/HttpContext.cc:16-57 | accepted are exactly the lines "method SP target SP version" with a known method and version, and those are what the request then holds |
| HttpContexts.RequestLineReads | http_server/HttpContext.cc:16-57 | a line of that shape is accepted exactly with GET, POST, HEAD, PUT or DELETE and HTTP/1.0 or HTTP/1.1, and holds that method and that version; on a failure just the fields read before it are set |
| HttpContexts.RequestTurn | http_server/HttpContext.cc:66-87 | where a request line is expected, the first line is consumed exactly if it is accepted; otherwise it stays in the buffer and the state stays |
| HttpContexts.HeaderTurn | http_server/HttpContext.cc:88-111 | where a header is expected, a line without ':', empty or not, ends the request and leaves what follows; any other sets the field before its first ':' to the trimmed rest |
| HttpContexts.TargetIsKept | http_server/HttpContext.cc:27-36 | path and query put together are the target again, and the path has no '?' |
| HttpResponses.HttpResponse.AppendToBuffer | http_server/HttpResponse.cc:18-47 | the output grows by exactly the printed response, with the two 32-byte snprintf cuts |
| HttpResponses.HttpResponse.AppendHeaders | http_server/HttpResponse.cc:37-43 | the loop writes one line per header, in the byte order of the keys |
| HttpResponses.StatusLinesAre | http_server/HttpResponse.cc:20-24 | the printed code of each status, in front of the message |
| HttpResponses.SortedIsSorted | http_server/HttpResponse.cc:37-43 | the order in which headers are written holds each key once, ascending |
| KeyOrder.FirstDifferenceDecides | http_server/HttpResponse.cc:37-43 | that order is byte-wise: the first byte that differs decides, and a beginning comes first |
| HeaderRoundTrips.KeptAliveLines | http_server/HttpResponse.cc:30-35 | a length of more than 13 digits loses its line end and swallows the Connection line |
| HeaderRoundTrips.HeaderLineRoundTripIff | http_server/HttpResponse.cc:37-43 | the parser's loop reads a printed header back, and consumes only its line, if and only if the key has no ':' and no CR LF and the value is trimmed and has no CR LF |
| HeaderRoundTrips.HeaderBlockIsRead | http_server/HttpContext.cc:88-111 | the header loop turns any printed header block into the connection headers as they survive printing, overridden by the response's own, and leaves exactly the body |
| HeaderRoundTrips.HeaderRoundTripIff | http_server/HttpResponse.cc:26-46 | the intended headers come back if and only if the connection closes, the body is shorter than 10^13 bytes, or both connection headers are overridden |
| HttpServers.HttpConnection.OnMessage | http_server/HttpServer.cc:66-83 | one call answers at most one request, or refuses; it shuts the connection down exactly on a refusal or a closing response; otherwise the connection is again one the parser may run on |
| HttpServers.HttpConnection.OnRequest | http_server/HttpServer.cc:85-99 | what is sent is the printed answer to the request; the connection is shut down exactly if the response closes it |
| HttpServers.MessageAnswers | http_server/HttpServer.cc:66-83 | exactly three cases: 400 and the end; the printed answer to the one complete request, and a fresh start but for the queries; or nothing, and waiting |
| HttpServers.ClosesExactly | http_server/HttpServer.cc:85-99 | the answer to a complete message says Connection: close, and the connection is shut down, exactly if the message asks for close or is an HTTP/1.0 one that does not ask for Keep-Alive |
| HttpServers.MessageKeepsReady | http_server/HttpServer.cc:66-83 | reset keeps the parser out of the states in which its loop would not end |
| HttpServers.DecodeResumes | http_server/HttpServer.cc:66-83 | requests answered plus requests still in the bytes are the same before and after a call |
| HttpServers.ConnectionDecodes | http_server/HttpServer.cc:66-83 | over any arrivals, answered requests followed by those the buffer still holds are the requests of the whole stream, in order, at most one per call |
| HttpServers.BufferIsSuffix | http_server/HttpServer.cc:66-83 | the buffer is the end of the bytes received: consumed and buffered bytes make up the stream |
| HttpServers.RunOver | http_server/HttpRequest.h:205-213 | queries collected earlier change nothing in a parse but the query map |
| HttpServers.QueriesAccumulate | http_server/HttpContext.h:49-54 | the i-th request of a connection equals the one a fresh parser reads, except that its query map is the last-wins merge of all queries so far |
| HttpServers.QueryIsOwnIff | http_server/HttpRequest.h:205-213 | a request is seen as its sender wrote it if and only if its query names every key used earlier on the connection |
| HttpServers.SecondRequestInherits | http_server/HttpRequest.h:205-213 | on one connection a request for a=1 and then one for b=2: the second is handled as if it had asked for both |
| Routing.FindForwardPath | proxy_server/tcp/TcpConnection.cc:182-198 | the loop ends on every path and table and finds what the specification of routing finds |
| Routing.LongestPrefix | proxy_server/tcp/TcpConnection.cc:182-198 | a path is served if and only if a key is a prefix of at least two bytes that is the whole path, ends in '/', or stops before a '/'; the longest such key wins |
| Routing.RouteIff | proxy_server/tcp/TcpConnection.cc:124-149 | a line routes, under a given location, exactly if it is GET or POST, a path, and HTTP/1.0 or HTTP/1.1, and the location is the longest that serves the path |
| Routing.ParseRequestLine | proxy_server/tcp/TcpConnection.cc:124-149 | accepts exactly the lines that route, with that path and location |
| Routing.RouteShape | proxy_server/tcp/TcpConnection.cc:124-149 | an accepted line is method, blank, path, blank, version, where only the path may hold blanks |
| Routing.ShapeRoutes | proxy_server/tcp/TcpConnection.cc:124-149 | every such line with a known method and version and a served path is accepted, under the location of its path |
| Routing.RequestLinesAgree | proxy_server/tcp/TcpConnection.cc:124-149 | the backend accepts a line the proxy forwards if and only if it holds two blanks, with the same method and version and a path plus query equal to the proxy's path |
| Routing.ExtractIsStable | proxy_server/tcp/TcpConnection.cc:68-74 | bytes that arrive later never change an address that can already be extracted |
| Routing.ExtractIff | proxy_server/tcp/TcpConnection.cc:68-74 | for every buffer, what is extracted is the text behind the first "Client: " up to the byte before the next line end, the search for which skips one byte; nothing if one of them is not there |
| Routing.InsertedAt | proxy_server/tcp/TcpConnection.cc:107-110 | for every message, the header is inserted behind the first line end, or in front of everything when there is none |
| Routing.ExtractsFirst | proxy_server/tcp/TcpConnection.cc:68-74 | the value of the first "Client: " line is what is extracted, byte for byte |
| Backend.SuccessHandle | http_server/server1.cc:101-116 | status, message, body, JSON type and the client's address are set; other headers and the close flag stay |
| Backend.ErrorHandle | http_server/server1.cc:118-130 | the same with the text type |
| Backend.DoBuy | http_server/server1.cc:49-99 | throws exactly if a purchase that names item and amount finds a row and the amount is no number; with a number, the response is 200 OK exactly if the stock covers it and the update succeeds, 400 with the too-few message exactly if it does not cover it; untouched when item or amount is missing |
| Backend.DoShow | http_server/server1.cc:132-166 | the response on each way out |
| Backend.OnRequest | http_server/server1.cc:32-47 | dispatch by path: any request that does not throw is answered as the database decides it, or left untouched |
| Backend.PurchaseIsAnswered | http_server/server1.cc:49-99 | status, message, headers and body of the answer to a purchase on every way out |
| Backend.OthersAreAnswered | http_server/server1.cc:39-46 | and of the answer to every other request |
| Backend.PurchaseIsChecked | http_server/server1.cc:80-92 | a purchase is let through and sold exactly when the buyer that holds the same row is, in the machine whose stock is conserved |
| Backend.AnswerNamesClient | http_server/server1.cc:101-130 | whatever the database does, extracting from the printed response gives the request's Client header if a handler filled it, and nothing if it did not |
| Backend.InsertedText | proxy_server/tcp/TcpConnection.cc:107-110 | the address becomes the first header line and nothing else of the message changes |
| Backend.FieldsKeepClient | http_server/HttpContext.cc:88-111 | no list of other header lines changes the Client header, and all of them are consumed |
| Backend.ForwardedIsRead | http_server/HttpContext.cc:60-118 | the backend reads a forwarded message completely, with the inserted address as its Client header, if and only if its line holds two blanks; otherwise it refuses it |
| ConnectionTables.StepKeeps | proxy_server/tcp/TcpConnection.cc:55-122 | every step keeps both maps filed by descriptor, the address table in bijection with the client map, open descriptors and client addresses exclusive, and every list equal to its live servers in order; no step uses a missing entry |
| ConnectionTables.AcceptKeeps | proxy_server/event_loop/EventLoop.cc:93-111 | accepting under a reused descriptor or address keeps all of that |
| ConnectionTables.ClientGoneKeeps | proxy_server/tcp/TcpConnection.cc:87-93 | so does erasing a client, even when it is processed a second time |
| ConnectionTables.DisconnectKeeps | proxy_server/tcp/TcpConnection.cc:57-66 | so does losing a server: erasing one occurrence per list is enough |
| ConnectionTables.RunsKeepTables | proxy_server/event_loop/EventLoop.cc:93-122 | so does every run, and nothing in it was sent through a missing entry |
| ConnectionTables.TablesAgree | proxy_server/event_loop/EventLoop.cc:126-137 | client and server descriptors are disjoint, and every routed descriptor has an open server connection |
| ConnectionTables.FirstLiveServer | proxy_server/tcp/TcpConnection.cc:111-119 | the chosen server is the first of the location's servers that is still connected; there is none if and only if all have gone |
| ConnectionTables.SendsToOwner | proxy_server/tcp/TcpConnection.cc:76-82 | a response goes unchanged to the open client that owns the address in it; a request goes with its sender's address to the open head of its location's list |
| ConnectionTables.ClientIsAnswered | proxy_server/tcp/TcpConnection.cc:94-121 | every read of an open client is forwarded or refused with the 404 at once: refused exactly if its first line is no GET or POST with a known version and a served path, or no server wired to its location is connected; it stays in the buffer exactly if refused |
| ConnectionTables.ServerIsForwarded | proxy_server/tcp/TcpConnection.cc:68-82 | a server's buffer is forwarded whole and emptied exactly if the first address in it is in the table; otherwise nothing is sent and nothing lost |
| ConnectionTables.GoneLosesItsEntries | proxy_server/tcp/TcpConnection.cc:57-93 | a client that has gone loses its two entries, a server its entry and its place in every list; everybody else keeps theirs |
| ConnectionTables.StaleResponseBlocks | proxy_server/tcp/TcpConnection.cc:68-82 | a response whose client has gone stays at the front of the buffer: over every run in which no client with that very address connects, all that this server sends piles up behind it and nothing is forwarded |
| ConnectionTables.StaleIsReached | proxy_server/tcp/TcpConnection.cc:87-93 | such a state is reached when a client comes, sends, and leaves before its response is read |
| ConnectionTables.RunsKeepConns | proxy_server/event_loop/EventLoop.cc:93-122 | over every run a connection keeps its descriptor, its kind and its peer, even when the descriptor is used again |
| EventLoops.EventLoop.ConnectToBusinessServer | proxy_server/event_loop/EventLoop.cc:124-142 | succeeds if and only if every target is at least seven bytes long and the ports of its servers are numbers; then the tables agree, and a location with target http:// and an upstream's name lists one connection to ip:port of each server of it, in configured order |
| EventLoops.WiredAsConfigured | proxy_server/event_loop/EventLoop.cc:126-137 | the same whatever the seven bytes are that are cut; a name without an upstream has no servers |
| EventLoops.EventLoop.ConnectLocation | proxy_server/event_loop/EventLoop.cc:127-138 | the inner loop completes one list and leaves the others complete, or throws exactly for such a target |
| EventLoops.EventLoop.HandleNewConnection | proxy_server/event_loop/EventLoop.cc:93-111 | the new client is filed under its descriptor and its address, and the invariant holds again |
| EventLoops.EventLoop.HandleMessage | proxy_server/event_loop/EventLoop.cc:113-122 | the connection that owns the descriptor is pushed into the bounded queue in a turn in which there is room; an unknown descriptor is ignored |
| EventLoops.EventLoop.ProcessRequest | proxy_server/threadpool/Threadpool.cc:71-80 | a worker's turn is the machine's step, never a crash, and the worker lets go of the connection |
| EventLoops.EventLoop.DoServerToClient | proxy_server/tcp/TcpConnection.cc:55-83 | tables, buffers and what is sent are those of the machine, early returns included |
| EventLoops.EventLoop.DropServer | proxy_server/tcp/TcpConnection.cc:59-65 | the loop removes the first occurrence of the descriptor from every list |
| EventLoops.EventLoop.DoClientToServer | proxy_server/tcp/TcpConnection.cc:85-122 | tables, buffers and what is sent are those of the machine, early returns included |
| EventLoops.RequestsGoToEarliest | proxy_server/tcp/TcpConnection.cc:111-119 | from a proxy wired as its configuration says, after every run, a forwarded request goes, under the longest location that serves its path, to the connection to the earliest ip:port of the upstream its target names whose connection is still there |
| EndToEnd.ReplyNamesSender | http_server/server1.cc:49-99 | insert, parse, handle, print, extract, for every body-less message the proxy forwards, on a backend connection with any earlier queries, and whatever the database finds: there is no reply exactly when an answered purchase is compared with a stock and its amount is no number; otherwise the sender's address comes back if and only if the line holds two blanks and a purchase names item and amount, itself or by an earlier query |
| EndToEnd.NamedForEveryIff | http_server/server1.cc:80-85 | the sender's address comes back for every database if and only if moreover the amount of a purchase is a number |
| Misdelivery.BadAmountHasNoReply | http_server/server1.cc:81 | /10001/buy/?commodity_id=1&num=abc is routed and names both, and gets no reply when the item is found |
| EndToEnd.BackendReads | http_server/HttpServer.cc:66-83 | one call of onMessage takes exactly the forwarded request, with the inserted address and the queries so far, consumes it whole and rests again if the line holds two blanks, and refuses otherwise |
| EndToEnd.ClientOutcome | proxy_server/tcp/TcpConnection.cc:85-122 | a client's message is forwarded whole and first in its buffer, or it is refused with the 404 and everything from it on stays refused |
| EndToEnd.ServerOutcome | proxy_server/tcp/TcpConnection.cc:55-83 | an echoed reply, alone or together with the end of the connection, is passed on to the connection its request came from, behind everything that is held; any other one is held |
| EndToEnd.TwoRepliesInOneRead | proxy_server/tcp/TcpConnection.cc:68-82 | when one read brings two replies and the first is echoed, both go to the client of the first |
| EndToEnd.ActKeeps | proxy_server/tcp/TcpConnection.cc:55-122 | every act of clients, proxy, backend and kernel, whatever body-less messages are sent, keeps each reply that may come paired with its open client, each backend connection at rest until it closes, nothing after a closing reply, and each server's buffer made up of the replies that name nobody |
| EndToEnd.EveryResponseReachesItsSender | proxy_server/tcp/TcpConnection.cc:55-122 | over every run of interleaved clients: what was passed on from a server connection is exactly each echoed reply, to the connection its request came from, behind those not echoed since the echoed one before; and the next reply is, when it is read, sent to the connection its request came from if and only if it is echoed, and otherwise to nobody |
| Misdelivery.OwnRepliesIff | proxy_server/tcp/TcpConnection.cc:55-122 | over every run, each client has received nothing but its own replies if and only if on no server connection a parsed request that is not echoed, and leaves the connection open, was answered before an echoed one |
| Misdelivery.StrangerIsDelivered | proxy_server/tcp/TcpConnection.cc:68-82 | for any two routed requests to one server of which the first is parsed, keeps the connection open and is not echoed, and the second is echoed with the queries the first leaves behind, there is a run that sends the first one's reply to the second client, in front of its own |
| Misdelivery.NoItemIsAnsweredIff | http_server/server1.cc:49-57 | a purchase without a query is echoed if and only if earlier queries on the backend connection have named item and amount |
| Misdelivery.PurchaseWithoutItemIsMisdelivered | http_server/server1.cc:53-57 | that request is such a first one: from a started proxy with the shop at /10001/, its untouched response reaches a client that asked for the list |
| Misdelivery.EachReplyCanArrive | proxy_server/threadpool/Threadpool.cc:71-80 | from every state that keeps the invariant, with an idle worker, some continuation reads all earlier replies of a connection and then the given one; if it is echoed it goes to its sender, behind those held and those of the earlier ones not echoed since |
| EndToEnd.ConnectedIsStarted | proxy_server/event_loop/EventLoop.cc:124-142 | a proxy that has connected to its servers is a state these runs may start from |
| TaskQueues.TaskQueue.PushTurn | proxy_server/threadpool/TaskQueue.hpp:64-68 | waits exactly when full, appends otherwise |
| TaskQueues.TaskQueue.PopTurn | proxy_server/threadpool/TaskQueue.hpp:79-92 | waits, takes the front, or gives null once the flag is cleared |
| TaskQueues.StepKeeps | proxy_server/threadpool/TaskQueue.hpp:60-100 | every atomic step, for any number of threads and spurious wakeups, keeps every item covered by a woken consumer if one sleeps, and every free slot by a woken producer if one sleeps |
| TaskQueues.NoLostWakeup | proxy_server/threadpool/TaskQueue.hpp:60-93 | in every reachable state before shutdown, if a consumer sleeps there are at most as many items as woken consumers; likewise for producers and free slots; items come out in order, none lost or duplicated |
| TaskQueues.PushedWasHanded | proxy_server/threadpool/TaskQueue.hpp:60-72 | over every run, all that was in the queue was put there by some thread, and what each has put, followed by what it still holds inside push, is what it handed to push, in order |
| TaskQueues.ReleasedStays | proxy_server/threadpool/TaskQueue.hpp:79-92 | once no consumer sleeps or is about to after the flag is cleared, none ever will |
| TaskQueues.ShutdownStrandsIff | proxy_server/threadpool/TaskQueue.hpp:96-100 | since wakeup does not take the mutex, some run leaves a consumer asleep until somebody pushes or notifies all again, if and only if one stood between its look and its sleep when all were notified |
| TaskQueues.LockedWakeupReleases | proxy_server/threadpool/TaskQueue.hpp:96-100 | a remark on code the repository does not have: with both halves of wakeup in one step under the mutex, nobody would be left asleep |
| Threadpools.PoolStepKeeps | proxy_server/threadpool/Threadpool.cc:44-80 | every step keeps each popped task processed once or with exactly one worker, and the queue empty after the exit flag |
| Threadpools.PushedWasAdded | proxy_server/threadpool/Threadpool.cc:44-47 | over every run, the tasks pushed are those given to addRequest, in order, but for the one still being pushed |
| Threadpools.DrainOnStop | proxy_server/threadpool/Threadpool.cc:56-68 | in every run pushed tasks are popped tasks followed by queued ones, within the bound; when stop has joined its threads the tasks popped are exactly those given to addRequest, and each was processed exactly once |
| Threadpools.LastPopIsNull | proxy_server/threadpool/Threadpool.cc:74-79 | after the exit flag nothing is popped, no worker starts another pop, and the one it is in gives null |
| Threadpools.ShutdownEnds | proxy_server/threadpool/Threadpool.cc:63-67 | once the queue is released every run is finite, at most three steps a worker and the join, and a run that cannot go on has joined all workers |
| Threadpools.StopHangsIff | proxy_server/threadpool/Threadpool.cc:56-68 | some run leaves stop() waiting for good, short of a spurious wakeup, if and only if a worker stands between its look and its sleep when wakeup notifies all |
| Threadpools.StopCanHang | proxy_server/threadpool/Threadpool.cc:56-68 | and that happens: for every queue size and set of workers, a run from the started pool, with no request at all, ends in such a state |
| ConnectionPools.ConnectionPool.Init | http_server/sql_connection_pool.cpp:26-46 | the list holds the connections made before the first failure, and the semaphore counts them |
| ConnectionPools.ConnectionPool.PopBack | http_server/sql_connection_pool.cpp:6-8 | the last connection leaves the list, the others stay in order |
| ConnectionPools.StepKeeps | http_server/sql_connection_pool.cpp:3-18 | every one of wait, pop, push and post keeps the count and the one place of each connection |
| ConnectionPools.TakesTheLast | http_server/sql_connection_pool.cpp:3-18 | taking and giving back are both at the end of the list |
| ConnectionPools.PoolConservation | http_server/sql_connection_pool.cpp:3-18 | in every interleaving the list is as long as the semaphore plus the threads in between; no pop meets an empty list; each connection is in the list or with exactly one holder |
| SocketIo.SocketIO.Writen | proxy_server/tcp/SocketIO.cc:42-62 | for every schedule of short writes, interrupts and failures the socket has accepted exactly the first returned-count bytes |
| SocketIo.SocketIO.Readn | proxy_server/tcp/SocketIO.cc:18-40 | every chunk up to the stop is appended as a C string; false exactly on a close or an error |
| SocketIo.ArrivingAre | proxy_server/tcp/SocketIO.cc:22-37 | the chunks appended are those before the first answer of another kind, and that answer stops the loop |
| SocketIo.ReceivedWholeIff | proxy_server/tcp/SocketIO.cc:35-36 | what is appended is what arrived if and only if no chunk holds a NUL |
| SocketIo.SentWholeIff | proxy_server/tcp/SocketIO.cc:48-61 | a message goes out whole if and only if no write fails before its end and the kernel accepts enough |
| Stock.StepKeeps | http_server/server1.cc:61-92 | under the lock, what a buyer has read stays true until it updates |
| Stock.CheckedAndSold | http_server/server1.cc:80-92 | an order passes the check exactly if what was read covers it; an update that succeeds takes exactly its amount off its row and no other |
| Stock.StockIsConserved | http_server/server1.cc:61-92 | in every interleaving of buyers and for every row of the table, the stock is never negative, and what is missing is the sum of the successful updates |
| Stock.NeverOversoldIff | http_server/server1.cc:61 | a remark on what the lock guard is for: with stock to sell, no interleaving of these steps oversells if and only if it is there |
| Stock.OversellingRun | http_server/server1.cc:61-92 | a remark: the run of the same steps without the guard that ends below zero |
| Configs.Parser.Parse | proxy_server/config.h:62-131 | status and, on a normal return, all fields are those of the line machine over the whole file |
| Configs.Parser.ParseTop | proxy_server/config.h:75-108 | one line outside of every block, exceptions included |
| Configs.Parser.ParseServer | proxy_server/config.h:151-190 | one line of a server block, all its words, exceptions included |
| Configs.Parser.ParseLocation | proxy_server/config.h:192-216 | one line of a location block |
| Configs.Parser.ParseUpstream | proxy_server/config.h:218-256 | one line of an upstream block |
| ConfigFiles.StoiReads | proxy_server/config.h:79-88 | every 32-bit number is read as it is printed |
| ConfigFiles.StoiIs | proxy_server/config.h:79-88 | which texts std::stoi reads and as what: a sign or none, digits, anything after them; nothing beyond 32 bits |
| ConfigFiles.CommentsAreCut | proxy_server/config.h:260-270 | the words of any line are those before its first '#' or ';' |
| ConfigFiles.LaidOutWords | proxy_server/config.h:260-270 | indentation, gaps, trailing blanks and a comment from '#' or ';' never change the words of a line |
| ConfigFiles.LayoutIndependence | proxy_server/config.h:62-149 | a file of well-formed blocks means the same with either brace placement for each block and any blank lines, comments and spacing, and ends outside of every block |
| ConfigMerge.NormalReturnMerges | proxy_server/config.h:72-130 | whenever the parser returns normally, whatever the file: each upstream holds its servers of before followed by all those given under its name in file order, each location the last proxy_pass given under its id, and there are no others than those named |
| ConfigMerge.LinesMerge | proxy_server/config.h:151-256 | the same from any line on, for all accepted lines, with any number of directives on a line and braces anywhere |
| ConfigMerge.ParsesLines | proxy_server/config.h:67-130 | the parser returns normally if and only if every line that holds anything is accepted and the last block is closed |
| ConfigMerge.OutsideAcceptedIff | proxy_server/config.h:75-108 | a line outside of every block is accepted exactly if it starts with server or upstream, or with threadNum or queSize and a number |
| ConfigMerge.ServerAcceptedIff | proxy_server/config.h:151-190 | a line of a server block is accepted exactly if braces open where it is closed and nowhere else, and the rest are names, numeric ports and at last a location |
| ConfigMerge.LocationAcceptedIff | proxy_server/config.h:192-216 | a line of a location likewise, with targets only |
| ConfigMerge.UpstreamAcceptedIff | proxy_server/config.h:218-256 | a line of an upstream likewise, with servers whose text has a ':' only |
| ConfigMerge.OneLineIsRead | proxy_server/config.h:218-256 | any number of servers and the closing brace on one line are accepted and read in order |
| ConfigFiles.UpstreamsMerge | proxy_server/config.h:95-103 | the meaning of any list of blocks: each name ends with its servers of before followed by those of all its blocks in order |
| ConfigFiles.LocationsMerge | proxy_server/config.h:172-180 | the meaning of any list of blocks: each location ends with the last target given for its id, in whichever block |
| ConfigFiles.FlagsKeptIff | proxy_server/config.h:151-256 | each bracket flag holds only in its own state, and the server's also inside a location, after every accepted line, if and only if the line does not reopen a block it has closed |
| ConfigFiles.FlagsFitThroughout | proxy_server/config.h:72-125 | so the flags are in order at every line boundary of a file on which a closing brace is only ever the last word of its line |
| ConfigFiles.ReopenedBlockIsStale | proxy_server/config.h:156-184 | the line "} {" is accepted and breaks that |
| ConfigFiles.ConfigRoundTrip | proxy_server/config.h:62-256 | any proper configuration, printed with its keys in any order and any layout, is what a new parser holds after reading the file |

## Left out

- HttpServers.QueriesAccumulate: the receive time of a request is not modelled.
- HttpRequests.HttpRequest.GetQuery: the source compares with the end of the header map (http_server/HttpRequest.h:184), which is undefined for an absent key; the model returns the intended empty string.
- EndToEnd.EveryResponseReachesItsSender: each read, of the proxy and of the backend, brings one whole message, requests without a body or a NUL and with CR LF line ends, all of it having been written (SocketIo says when a write is short and which bytes a NUL costs); clients send no Client header; and a client stays while its reply may still come. EndToEnd.TwoRepliesInOneRead shows why the first is needed, ConnectionTables.StaleIsReached and StaleResponseBlocks why the last. That a client receives nothing but its own reply is not promised by the code; Misdelivery.OwnRepliesIff says exactly when it does, and Misdelivery.PurchaseWithoutItemIsMisdelivered when it does not. After a closing answer the backend may still handle what comes on the connection, but sends nothing.
- Misdelivery.EachReplyCanArrive: some continuation, not every one; a reply need not arrive when its server connection is lost first.
- EventLoops.EventLoop.ConnectToBusinessServer: connects succeed and give distinct descriptors (a failed one pushes -1, proxy_server/event_loop/EventLoop.cc:132-133), and the empty upstream that operator[] inserts for an unknown name is read as having no servers.
- Threadpools.ShutdownEnds: starts from a queue in which no consumer sleeps or is about to after the notification; TaskQueues.LockedWakeupReleases and Threadpools.StopHangsIff say when that is so.
- Backend.DoBuy: the JSON texts, with the price in them, and what the database finds are parameters; an exception ends the backend process, which the runs show as the loss of its connections.
- Stock.StockIsConserved: an amount is printed into the update as stoi has read it, a failed query changes nothing, and an item's id selects one row.
- SocketIo.SocketIO.Writen: message lengths fit an int; a schedule that ends before the message does leaves the loop waiting, which a flag reports.
- Connection objects are values in a store indexed by identity instead of shared pointers: an object is open exactly as long as a table, a queue slot or a worker refers to it.
- Each processing of a connection, each test of the exit flag and the unlocked emptiness test are atomic; C++ data races on the unlocked tables are outside of the model.
- The kernel never hands out a descriptor, nor accepts a peer address, that an open connection still has.
- A string is a sequence of bytes without a length limit; the fixed Chinese status messages are characters instead of their UTF-8 bytes, none of which is a 'C'.
- A refused request ends a backend connection: what later bytes on it would do is not modelled.
- connectionRAII is used as a temporary by its callers and so releases at once (http_server/server1.cc:59); exclusivity is stated for the pool alone.
- The text of the proxy's own 404 response, console output, and the fields in which parse_request_line leaves its results, which the model returns instead.
- epoll, sockets, MySQL, muduo and jsoncpp, the Acceptor, Socket, InetAddress and Thread wrappers, option parsing and the main functions are not part of this model.
- http_server/server2.cc repeats server1.cc on another table; the default HTTP callback is a constant.
