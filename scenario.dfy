/**
 * A client of the handlers' contracts: the first exchange of a new
 * conversation with an empty model, then both history reads.
 */
module Scenario {
  import opened Wrappers
  import opened Models
  import Gemini
  import Store = ConversationStore
  import Chat
  import History

  method FirstExchange(apiKey: string)
  {
    var answer := Gemini.GeminiResponse([Gemini.Candidate(Gemini.Content([Gemini.Part("Hello!")], "model"))]);
    var transport := (call: Gemini.HttpCall) => Gemini.Received(200, "", Ok(answer));
    var store := new Store.ConversationStore();
    var req := Chat.ChatRequest("c1", "Hi", "", "", []);
    assert Gemini.FirstText(answer) == Some("Hello!");

    var resp := Chat.HandleChat(store, Some(req), apiKey, (url: string) => true, transport, Store.Acknowledged, 1, 2, 3);
    assert resp == Chat.Answered("Hello!") && resp.Status() == 200;

    var stored := Conversation("c1", [ChatMessage("Hi", true, "", 1), ChatMessage("Hello!", false, "", 2)], "gemini-pro", 3);
    var found := History.HandleHistory(store, "c1", false, None);
    assert found == History.Found(stored);

    var missing := History.HandleHistory(store, "unknown", false, None);
    assert missing == History.NotFound && missing.Status() == 404;

    var again := Chat.HandleChat(store, Some(req.(model := "other")), apiKey, (url: string) => true, transport, Store.Acknowledged, 4, 5, 6);
    found := History.HandleHistory(store, "c1", false, None);
    assert found.conv.model == "gemini-pro" && found.conv.createdAt == 3 && |found.conv.messages| == 4;

    var crash := Chat.HandleChat(store, Some(req.(model := "gemini%zz")), apiKey, (url: string) => false, transport, Store.Acknowledged, 7, 8, 9);
    assert crash == Chat.Crashed && crash.Status() == 500;
    var after := History.HandleHistory(store, "c1", false, None);
    assert after == found;

    var unconfirmed := Chat.HandleChat(store, Some(req), apiKey, (url: string) => true, transport, Store.AppliedButReported, 10, 11, 12);
    assert unconfirmed == Chat.Failed("DB error");
    after := History.HandleHistory(store, "c1", false, None);
    assert |after.conv.messages| == 6;
  }
}
