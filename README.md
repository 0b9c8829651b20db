# TelegramBotMessageSender, modelled in Dafny

The Go package `messagesender` (one file, `in.go`) sends a text to a fixed
list of Telegram chats. `New` validates the options and starts a background
dispatcher. `Send` builds one HTTP request per chat and pushes each onto a
FIFO work queue, adding one to a `sync.WaitGroup` counter per request. The
dispatcher wakes on a ticker and pops at most one request per tick. It sends
each popped request on its own goroutine, which calls `wg.Done()` at the end.
`Wait` blocks until the counter is zero.

The model replaces the goroutines and the ticker by explicit steps: `Tick`
(one iteration of the dispatcher loop) and `Complete` (a started send
finishing). What is left is a sequential state machine:

- `wrappers.dfy`: `Option` and `Result`.
- `config.dfy`: `Options`, the validation done by `New`, and the ticker period `time.Minute / rps`.
- `requests.dfy`: the exact request URL, the request value, the first chat
  whose URL `http.NewRequest` refuses, and a decoder that reads the chat id
  and the text back from a URL.
- `dispatch.dfy`: the sender's state as a value (queue, counter, running
  sends, dropped entries). It has the pure steps `Enqueue`, `Tick`, `Complete`
  and `Drained`, the counter invariant, and the FIFO and draining lemmas.
- `sender.dfy`: the class `TelegramBot`, whose fields `queue` and `inFlight`
  are updated in place by `Send`, `Tick` and `Complete`. Each method is
  specified by the matching step in `dispatch.dfy`. It also holds `New`.

`http.NewRequest` is an oracle: `Send` takes a parameter `accepts: string ->
bool` that says whether a URL parses. The counter invariant is `inFlight ==
|queue| + running + leaked`. Every pushed entry was counted first, and only
a completed send releases a count. `running` and `leaked` are ghost fields:
Go has the goroutines and a lost count, not variables for them.

Three points where the code does not do what its names suggest:

- The message is put into the URL as it is, without URL escaping (in.go:50).
  `Requests.UnescapedUrlsCollide` shows two different chat/text pairs that
  give the same URL.
- The ticker period is `time.Minute / rps`, so `rps` counts ticks per
  minute, not per second (in.go:65). At the rate used by `New` (20), that is
  one tick every three seconds.
- `Send` does not always add one request per chat. When building a request
  fails, the earlier requests of the call stay queued and the later ones are
  never built.

## Model

| member | source | states |
|---|---|---|
| `Config.Validate` | in.go:28-35 | fails exactly when the token is empty or the chat list is empty; an empty token is reported first; otherwise returns the options unchanged |
| `Config.TickPeriod` | in.go:65 | defined exactly when `0 < rps <= time.Minute` (otherwise Go panics: division by zero or a non-positive ticker period); the period is positive and is `time.Minute` divided by `rps`, truncated |
| `Config.DefaultPeriod` | in.go:42 | the rate 20 used by `New` gives a 3-second period, twenty ticks per minute |
| `Requests.SendRequests` | in.go:48-51 | one POST request per chat id, in chat-list order; the i-th one targets the i-th chat id |
| `Requests.FirstRejected` | in.go:48-54 | the index of the first chat whose URL the request constructor refuses: every earlier URL is accepted, and the one at the index is refused unless the index is the list length |
| `Requests.SendUrl` | in.go:50 | the URL is exactly `"https://api.telegram.org/bot" + token + "/sendMessage?chat_id=" + chatId + "&text=" + message`, nothing escaped, 55 characters longer than its three parts |
| `Requests.SendRequest` | in.go:50-51 | the request built for one chat is a POST to that chat's URL |
| `Requests.DecodeSendUrlInverts` | in.go:50 | the URL string is injective for chat ids without '&': the model's own splitter recovers the chat id and the raw message from it (this is not how `net/url` or the server read the URL) |
| `Requests.DecodeSendUrlSound` | in.go:50 | every URL the decoder accepts is exactly the concatenation for the chat id and text it returns, and that chat id has no '&' |
| `Requests.UnescapedUrlsCollide` | in.go:50 | because nothing is escaped, two different chat/text pairs can produce the same URL |
| `Dispatch.Initial` | in.go:37-40 | a new sender has an empty queue, a zero counter, and satisfies the counter invariant and well-typedness |
| `Dispatch.Enqueue` | in.go:57-58 | the built requests go to the tail in order, the entries already queued are unchanged, the counter grows by exactly the number pushed, and the counter invariant and well-typedness are preserved |
| `Dispatch.OutcomeOf` | in.go:77-81 | the type assertion: a request entry is dispatched with that same request, any other entry is discarded |
| `Dispatch.Tick` | in.go:73-81 | an empty queue is left unchanged (idle tick); otherwise exactly the head is popped and the rest stays in order; a request starts a send, any other entry is dropped and its count leaks; the counter never changes; the invariant is preserved; on a well-typed queue nothing is dropped |
| `Dispatch.Complete` | in.go:84 | a finished send decrements the counter and the running count by one and leaves the queue alone; the invariant is preserved |
| `Dispatch.Drained` | in.go:101-103 | `Wait` returns when the counter is zero; under the invariant, that holds exactly when the queue is empty, no send runs, and nothing was dropped |
| `Dispatch.RunTicks` | in.go:70-72 | k ticks in a row give exactly k outcomes |
| `Dispatch.RunTicksFifo` | in.go:70-81 | after k ticks, the first `min(k, |queue|)` entries are gone and the rest are left in order; the i-th tick handles the i-th entry, so sends start in enqueue order; later ticks are idle; at most k entries leave in k ticks |
| `Dispatch.TwoSendsFifo` | in.go:57-81 | across two `Send` calls, ticking through the queue starts every request of the first call, in order, before any request of the second, after the entries queued before both |
| `Dispatch.RunTicksKeepsInvariants` | in.go:70-81 | any number of ticks preserves the counter invariant and well-typedness, and on a well-typed queue no tick drops anything |
| `Dispatch.CompleteAll` | in.go:83-84 | completing any number of running sends keeps the counter invariant |
| `Dispatch.CompleteAllReleases` | in.go:83-84 | completing n sends lowers the counter and the running count by exactly n and leaves the queue alone |
| `Dispatch.EventuallyDrains` | in.go:101-103 | from any well-typed state, one tick per queued request and then the completion of every send bring the counter to zero, so `Wait` returns |
| `MessageSender.TelegramBot.constructor` | in.go:37-40 | the sender built from validated options has an empty queue and a zero counter |
| `MessageSender.TelegramBot.Send` | in.go:47-62 | for k the first refused chat: pushes exactly the requests for chats `0..k-1`, in order, at the tail of the queue; the counter grows by k; returns no error if k is the list length, otherwise the error for the k-th URL; the invariant is preserved |
| `MessageSender.TelegramBot.Admit` | in.go:57-58 | counts one request and then pushes it at the tail of the queue; nothing else changes |
| `MessageSender.TelegramBot.Tick` | in.go:72-96 | a tick changes the queue and the counter exactly as `Dispatch.Tick` says and returns its outcome |
| `MessageSender.TelegramBot.Complete` | in.go:84 | a finished send changes the state exactly as `Dispatch.Complete` says |
| `MessageSender.TelegramBot.Wait` | in.go:101-103 | `Wait` returns now exactly when the counter is zero, which means the queue is empty, no send runs, and nothing was dropped |
| `MessageSender.New` | in.go:28-45 | fails exactly when validation fails, with the same error; otherwise returns a fresh sender with the given options, an empty queue, a zero counter, and a 3-second dispatcher period |

## Left out

- HTTP: URL parsing inside `http.NewRequest` is the oracle `accepts`. `client.Do`, the status check and closing the body are left out (in.go:51, 85-94): they are network calls whose outcome does not change the sender's state.
- Goroutines, the blocking of `sync.WaitGroup`, and the wall-clock timing of `time.Ticker` (in.go:42, 65-72, 83, 102) are left out. Ticks and completions are explicit steps between calls. Each `Send` call is one atomic step, so no tick falls between two pushes of the same call, while in Go the dispatcher goroutine runs during `Send`'s loop (in.go:48-58); the contract of `MessageSender.TelegramBot.Send` relies on this. Several `Send` calls running at once, and how their pushes interleave, are not modelled; neither are races between `IsEmpty` and `Pop`.
- The queue library `github.com/kupalovmuhammadjon/Queue` is not part of this model. Its queue is a `seq` with push at the tail and pop at the head.
- MessageSender.TelegramBot.constructor: copies the chat ids at `New`. In Go, `cfg: config` (in.go:39) shares the caller's `ChatIds` backing array, so a later write through the caller's slice changes the chat ids `Send` uses (in.go:48); the model ignores such writes. The token and the slice length cannot change that way, so validity, the counter invariant and FIFO order are unaffected.
- The WaitGroup counter is unbounded in the model (`inFlight: nat`); in Go it is a 32-bit counter and `wg.Add` (in.go:57) panics past 2^31-1 uncompleted requests, where `Dispatch.Enqueue` and `MessageSender.TelegramBot.Send` still finish normally.
- Strings are Dafny `seq<char>` (Unicode scalar values); a Go token, chat id or message that is not valid UTF-8 cannot be represented.
- The contents of Go's `*url.Error` returned by `http.NewRequest` (in.go:51-53) are abstracted: the model's `RequestRejected` carries the whole URL it built, whereas Go's error holds its `Op`, the cause, and only the part of the URL before a '#'.
- Logging with `fmt.Println` / `fmt.Printf` is left out: it is output only.
- MessageSender.TelegramBot.Wait: models whether `Wait` returns at this point, not the blocking call itself.
- No code path pushes a non-request entry. The `Malformed` entry and the `leaked` count exist only to model the type-assertion branch (in.go:77-81).
