/**
 * The `{role, content}` chat entry shared by the backend's outgoing message
 * list (Backend/chat.py) and the front end's `ChatMessage` interface
 * (ai-chatbot-services/src/services/openaiApi.ts:6-9).
 */
module Messages {

  datatype Role = System | User | Assistant

  datatype ChatMessage = ChatMessage(role: Role, content: string)
}
